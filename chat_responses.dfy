/**
 * The scripted conversation templates, keyed by task title, and the lookup
 * that resolves a chat's title to its template.
 */
module ChatResponses {
  import opened Wrappers

  datatype StepStatus = Complete | Current | Pending

  /** One line of the "agent is working" animation; `delay` is in milliseconds. */
  datatype Step = Step(text: string, delay: int, status: StepStatus)

  datatype SupportLink = SupportLink(name: string, url: string)

  /** A scripted turn: the user line it answers (absent for the first) and the assistant's reply. */
  datatype Response = Response(user: Option<string>, assistant: string)

  datatype Template = Template(initialMessage: string, steps: seq<Step>, supportLinks: seq<SupportLink>,
                               responses: seq<Response>)

  const DefaultKey: string := "default"

  const Table: map<string, Template> := map[
    "Track My Order" := Template(
      "I'll help you track your order right away.",
      [ Step("Accessing order database...", 0, Complete),
        Step("Locating your recent orders", 1000, Complete),
        Step("Retrieving tracking information", 2000, Complete),
        Step("Generating status report", 3000, Current) ],
      [ SupportLink("Amazon Help", "#"), SupportLink("Order Support", "#"), SupportLink("Delivery FAQ", "#") ],
      [ Response(None, "I've found your most recent Amazon order (#A80945-XZ29). It's currently in transit and scheduled to be delivered tomorrow between 2-5 PM. The package is currently at the local distribution center in your city. Would you like me to set up delivery notifications for you?"),
        Response(Some("Yes, please set up notifications."), "Great! I've set up SMS notifications for this order. You'll receive updates when the package is out for delivery and when it's been delivered. Is there anything else you'd like to know about this order?"),
        Response(Some("What items are in this order?"), "This order contains: 1x Wireless Headphones ($79.99) and 1x Phone Charging Cable ($12.99). The total was $92.98 with free shipping through your Prime membership. The payment was processed using your Visa card ending in 4382.") ]),
    "Cancel Subscription" := Template(
      "I'll help you cancel your subscription.",
      [ Step("Accessing your account...", 0, Complete),
        Step("Reviewing subscription details", 1000, Complete),
        Step("Preparing cancellation options", 2000, Complete),
        Step("Processing request", 3000, Current) ],
      [ SupportLink("Netflix Help", "#"), SupportLink("Subscription Center", "#"), SupportLink("Billing Support", "#") ],
      [ Response(None, "I've accessed your Netflix subscription details. Your current plan is the Standard plan ($15.49/month) and your next billing date is June 15th. Would you like to proceed with cancellation, or would you prefer to downgrade to a less expensive plan?"),
        Response(Some("I want to cancel completely."), "I understand. Before proceeding with the cancellation, Netflix is offering you a 50% discount for the next 3 months if you decide to stay. Would you be interested in this offer instead?"),
        Response(Some("No, I still want to cancel."), "I've processed your cancellation request. Your Netflix subscription has been cancelled successfully. You'll still have access to the service until the end of your current billing period (June 15th). You've saved $15.49 per month going forward. Is there anything else you'd like help with?") ]),
    "Raise a Complaint" := Template(
      "I'll help you file a complaint right away.",
      [ Step("Accessing complaint system...", 0, Complete),
        Step("Preparing complaint form", 1000, Complete),
        Step("Checking resolution options", 2000, Complete),
        Step("Submitting your complaint", 3000, Current) ],
      [ SupportLink("Flipkart Support", "#"), SupportLink("Consumer Rights", "#"), SupportLink("Return Policy", "#") ],
      [ Response(None, "I'm ready to help you file a complaint about your Flipkart order. Could you please provide some details about the issue you're experiencing?"),
        Response(Some("I received a damaged product and the return window has expired."), "I'm sorry to hear that. Even though the standard return window has expired, you may still be eligible for a return or replacement under warranty. I've filed a complaint (reference #FL-23097) with Flipkart's extended support team. They'll review your case and contact you within 24-48 hours. Would you like me to follow up with them if you don't hear back?"),
        Response(Some("Yes, please follow up if I don't hear back."), "I've set a reminder to check the status of your complaint in 48 hours. If Flipkart hasn't contacted you by then, I'll automatically follow up and escalate your case if necessary. In the meantime, I've also sent you an email with the complaint details and reference number for your records.") ]),
    DefaultKey := Template(
      "I'll help you with that right away.",
      [ Step("Processing your request...", 0, Complete),
        Step("Analyzing options", 1000, Complete),
        Step("Finding solutions", 2000, Complete),
        Step("Preparing response", 3000, Current) ],
      [ SupportLink("Customer Support", "#"), SupportLink("Help Center", "#"), SupportLink("FAQ", "#") ],
      [ Response(None, "I'm here to help with your request. Could you please provide more details about what you need assistance with?"),
        Response(Some("I need more information."), "I'd be happy to provide more information. To better assist you, could you please specify what particular aspect you'd like to know more about?"),
        Response(Some("Thank you for your help."), "You're welcome! I'm glad I could assist you. If you have any other questions or need help with anything else in the future, don't hesitate to ask. Is there anything else I can help you with today?") ])
  ]

  /**
   * The shape every template in the table has: four steps 0, 1000, 2000 and
   * 3000 ms apart of which only the last is current, three support links, and
   * three scripted responses of which only the first answers no user line.
   */
  predicate WellFormed(t: Template)
  {
    && |t.steps| == 4
    && (forall i :: 0 <= i < 4 ==> t.steps[i].delay == 1000 * i)
    && (forall i :: 0 <= i < 4 ==> (t.steps[i].status == Current <==> i == 3))
    && |t.supportLinks| == 3
    && |t.responses| == 3
    && t.responses[0].user.None?
    && (forall i :: 1 <= i < 3 ==> t.responses[i].user.Some?)
  }

  /**
   * `chatResponses[taskTitle] || chatResponses['default']`: total, by exact
   * (case-sensitive) title match, falling back to the default template; every
   * template it returns is well formed, so `responses[0]` always exists.
   */
  function GetChatResponseByTask(taskTitle: string): (t: Template)
    ensures t in Table.Values
    ensures WellFormed(t)
    ensures taskTitle in Table ==> t == Table[taskTitle]
    ensures taskTitle !in Table ==> t == Table[DefaultKey]
  {
    TableWellFormed();
    if taskTitle in Table then Table[taskTitle] else Table[DefaultKey]
  }

  /** The table has a default entry and exactly four titles, each with a well-formed template. */
  lemma TableWellFormed()
    ensures DefaultKey in Table
    ensures Table.Keys == {"Track My Order", "Cancel Subscription", "Raise a Complaint", DefaultKey}
    ensures forall k :: k in Table ==> WellFormed(Table[k])
  {
  }

  /** Lookup is exact: a title that differs only in letter case falls back to the default. */
  lemma LookupIsCaseSensitive()
    ensures GetChatResponseByTask("track my order") == Table[DefaultKey]
    ensures GetChatResponseByTask("Track My Order") != GetChatResponseByTask("track my order")
  {
    assert "track my order" != "Track My Order";
    assert Table["Track My Order"].initialMessage != Table[DefaultKey].initialMessage;
  }
}
