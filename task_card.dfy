/**
 * The status badge of a task card: its colour is chosen from the status
 * lower-cased, falling back to purple for a status that mentions a price and
 * to grey for anything else; a card with an empty status shows no badge.
 */
module TaskCard {
  /** The four colour schemes `getStatusColor` returns. */
  datatype Badge = Blue | Green | Gray | Purple

  /** The class list each colour stands for. */
  function Classes(b: Badge): string
  {
    match b
    case Blue => "bg-blue-100 text-blue-800"
    case Green => "bg-green-100 text-green-800"
    case Gray => "bg-gray-100 text-gray-800"
    case Purple => "bg-purple-100 text-purple-800"
  }

  /** `toLowerCase` on one character, for the ASCII letters. */
  function LowerChar(ch: char): char
  {
    if 'A' <= ch <= 'Z' then (ch as int + 32) as char else ch
  }

  predicate IsUpper(ch: char)
  {
    'A' <= ch <= 'Z'
  }

  /**
   * `s.toLowerCase()`, for ASCII text: no upper-case letter is left, each one
   * becomes its lower-case letter in place, and every other character stays.
   */
  function ToLower(s: string): (r: string)
    ensures |r| == |s|
    ensures forall i :: 0 <= i < |r| ==> !IsUpper(r[i])
    ensures forall i :: 0 <= i < |s| && IsUpper(s[i]) ==> 'a' <= r[i] <= 'z' && r[i] as int == s[i] as int + 32
    ensures forall i :: 0 <= i < |s| && !IsUpper(s[i]) ==> r[i] == s[i]
  {
    seq(|s|, i requires 0 <= i < |s| => LowerChar(s[i]))
  }

  /** Lower-casing changes a text exactly when it holds an upper-case letter, so doing it twice changes nothing more. */
  lemma ToLowerFixedPoint(s: string)
    ensures ToLower(s) == s <==> forall i :: 0 <= i < |s| ==> !IsUpper(s[i])
    ensures ToLower(ToLower(s)) == ToLower(s)
  {
    if ToLower(s) == s {
      forall i | 0 <= i < |s| ensures !IsUpper(s[i]) {
        assert ToLower(s)[i] == s[i];
      }
    }
  }

  /** `getStatusColor(status)`. */
  function StatusColor(status: string): Badge
  {
    var lower := ToLower(status);
    if lower == "in progress" then Blue
    else if lower == "resolved" then Green
    else if lower == "open" then Gray
    else if lower == "available" then Green
    else if '$' in status then Purple
    else Gray
  }

  /** `{task.status && ...}`: the badge shows for a non-empty status. */
  predicate ShowsBadge(status: string)
  {
    status != ""
  }

  /** Lower-casing keeps every character that is not an upper-case letter, `$` among them. */
  lemma LowerKeepsDollar(s: string)
    ensures '$' in s <==> '$' in ToLower(s)
  {
    var r := ToLower(s);
    if '$' in s {
      var i :| 0 <= i < |s| && s[i] == '$';
      assert r[i] == '$';
    }
    if '$' in r {
      var i :| 0 <= i < |r| && r[i] == '$';
      assert s[i] == '$';
    }
  }

  /**
   * Each colour, characterised: blue for "in progress", green for "resolved"
   * or "available", purple for any other status containing `$`, and grey for
   * "open" and everything else, the comparisons ignoring ASCII case.
   */
  lemma StatusColorCases(status: string)
    ensures var lower := ToLower(status);
      && (StatusColor(status) == Blue <==> lower == "in progress")
      && (StatusColor(status) == Green <==> lower == "resolved" || lower == "available")
      && (StatusColor(status) == Purple <==>
            lower !in {"in progress", "resolved", "open", "available"} && '$' in status)
      && (StatusColor(status) == Gray <==>
            lower == "open" || (lower !in {"in progress", "resolved", "open", "available"} && '$' !in status))
  {
  }

  /** The colour depends on the status only through its lower-cased form. */
  lemma StatusColorIgnoresCase(a: string, b: string)
    requires ToLower(a) == ToLower(b)
    ensures StatusColor(a) == StatusColor(b)
  {
    LowerKeepsDollar(a);
    LowerKeepsDollar(b);
  }

  /** The statuses the catalogue uses, with the colours they get. */
  lemma CatalogueStatuses()
    ensures StatusColor("In Progress") == Blue
    ensures StatusColor("Open") == Gray
    ensures StatusColor("Available") == Green
    ensures StatusColor("$25 Saved") == Purple && StatusColor("$40 Saved") == Purple
  {
    assert ToLower("In Progress") == "in progress";
    assert ToLower("Open") == "open";
    assert ToLower("Available") == "available";
    assert ToLower("$25 Saved")[0] == '$';
    assert ToLower("$40 Saved")[0] == '$';
    assert "$25 Saved"[0] == '$' && "$40 Saved"[0] == '$';
  }
}
