/**
 * The message box: a text field whose content may be sent only when it holds
 * something besides white space and no send is in flight. The text sent is
 * the field as typed, untrimmed.
 */
module ChatInput {
  import opened Wrappers

  /** The characters `String.prototype.trim` removes: ECMAScript white space and line terminators. */
  predicate IsTrimmable(ch: char)
  {
    || ch == '\t' || ch == '\n' || ch == '\U{B}' || ch == '\U{C}' || ch == '\r' || ch == ' '
    || ch == '\U{A0}' || ch == '\U{1680}' || ('\U{2000}' <= ch <= '\U{200A}')
    || ch == '\U{2028}' || ch == '\U{2029}' || ch == '\U{202F}' || ch == '\U{205F}'
    || ch == '\U{3000}' || ch == '\U{FEFF}'
  }

  /** Every character of `s` satisfies `ws`. */
  predicate All(s: string, ws: char -> bool)
  {
    forall i :: 0 <= i < |s| ==> ws(s[i])
  }

  predicate AllTrimmable(s: string)
  {
    All(s, IsTrimmable)
  }

  /** `s` without its longest prefix of characters satisfying `ws`. */
  function DropStart(s: string, ws: char -> bool): string
  {
    if s != [] && ws(s[0]) then DropStart(s[1..], ws) else s
  }

  /** `s` without its longest suffix of characters satisfying `ws`. */
  function DropEnd(s: string, ws: char -> bool): string
  {
    if s != [] && ws(s[|s| - 1]) then DropEnd(s[..|s| - 1], ws) else s
  }

  /** `s.trim()`: the white space at both ends removed. */
  function Trim(s: string): string
  {
    DropEnd(DropStart(s, IsTrimmable), IsTrimmable)
  }

  /** Dropping from the start leaves a suffix, after a prefix of `ws` characters, that does not start with one. */
  lemma {:induction false} DropStartShape(s: string, ws: char -> bool)
    ensures var k := |s| - |DropStart(s, ws)|;
      0 <= k <= |s| && DropStart(s, ws) == s[k..] && All(s[..k], ws)
    ensures DropStart(s, ws) != [] ==> !ws(DropStart(s, ws)[0])
  {
    if s != [] && ws(s[0]) {
      DropStartShape(s[1..], ws);
      var k := |s[1..]| - |DropStart(s[1..], ws)|;
      assert s[1..][k..] == s[k + 1..];
      assert s[..k + 1] == [s[0]] + s[1..][..k];
    }
  }

  /** Dropping from the end leaves a prefix, before a suffix of `ws` characters, that does not end with one. */
  lemma {:induction false} DropEndShape(s: string, ws: char -> bool)
    ensures var k := |DropEnd(s, ws)|;
      k <= |s| && DropEnd(s, ws) == s[..k] && All(s[k..], ws)
    ensures DropEnd(s, ws) != [] ==> !ws(DropEnd(s, ws)[|DropEnd(s, ws)| - 1])
  {
    if s != [] && ws(s[|s| - 1]) {
      var s' := s[..|s| - 1];
      DropEndShape(s', ws);
      var k := |DropEnd(s', ws)|;
      assert s'[..k] == s[..k];
      assert s[k..] == s'[k..] + [s[|s| - 1]];
    }
  }

  /** Dropping from the start leaves nothing exactly when every character satisfies `ws`. */
  lemma {:induction false} DropStartEmpty(s: string, ws: char -> bool)
    ensures DropStart(s, ws) == [] <==> All(s, ws)
  {
    if s != [] && ws(s[0]) {
      DropStartEmpty(s[1..], ws);
      assert All(s, ws) <==> All(s[1..], ws) by {
        assert forall i :: 0 < i < |s| ==> s[i] == s[1..][i - 1];
      }
    }
  }

  /** Dropping from the end of a string that does not start with a `ws` character leaves its first character. */
  lemma {:induction false} DropEndKeepsFirst(s: string, ws: char -> bool)
    requires s != [] && !ws(s[0])
    ensures DropEnd(s, ws) != [] && DropEnd(s, ws)[0] == s[0]
  {
    if ws(s[|s| - 1]) {
      DropEndKeepsFirst(s[..|s| - 1], ws);
    }
  }

  /**
   * `s.trim()` is the part of `s` left after its leading white space, up to
   * its trailing white space: it neither starts nor ends with white space.
   */
  lemma TrimShape(s: string)
    ensures var i := |s| - |DropStart(s, IsTrimmable)|;
      0 <= i && i + |Trim(s)| <= |s| && Trim(s) == s[i..i + |Trim(s)|] && AllTrimmable(s[..i])
    ensures Trim(s) != [] ==> !IsTrimmable(Trim(s)[0]) && !IsTrimmable(Trim(s)[|Trim(s)| - 1])
  {
    DropStartShape(s, IsTrimmable);
    var u := DropStart(s, IsTrimmable);
    var i := |s| - |u|;
    DropEndShape(u, IsTrimmable);
    assert u[..|Trim(s)|] == s[i..i + |Trim(s)|];
    if Trim(s) != [] {
      DropEndKeepsFirst(u, IsTrimmable);
    }
  }

  /** `message.trim()` is empty exactly when every character of the message is white space. */
  lemma TrimEmpty(s: string)
    ensures Trim(s) == [] <==> AllTrimmable(s)
  {
    var u := DropStart(s, IsTrimmable);
    DropStartEmpty(s, IsTrimmable);
    DropStartShape(s, IsTrimmable);
    if u != [] {
      DropEndKeepsFirst(u, IsTrimmable);
    }
  }

  /** Trimming twice trims nothing more. */
  lemma TrimIdempotent(s: string)
    ensures Trim(Trim(s)) == Trim(s)
  {
    TrimShape(s);
    var t := Trim(s);
    if t != [] {
      assert DropStart(t, IsTrimmable) == t;
      assert DropEnd(t, IsTrimmable) == t;
    }
  }

  /** The submit gate: something besides white space, and no send in flight. */
  predicate CanSubmit(message: string, isLoading: bool)
  {
    Trim(message) != [] && !isLoading
  }

  /** The submit button's `disabled` attribute. */
  predicate Disabled(message: string, isLoading: bool)
  {
    Trim(message) == [] || isLoading
  }

  /**
   * The button is disabled exactly when the gate rejects: an enabled button
   * always sends, and a disabled one never does, which happens exactly for a
   * loading field or one of only white space.
   */
  lemma DisabledIffRejected(message: string, isLoading: bool)
    ensures Disabled(message, isLoading) <==> !CanSubmit(message, isLoading)
    ensures CanSubmit(message, isLoading) <==> !isLoading && !AllTrimmable(message)
  {
    TrimEmpty(message);
  }

  class ChatInputField {
    var message: string

    constructor ()
      ensures message == ""
    {
      message := "";
    }

    /** `onChange`: the field takes the new value as typed. */
    method Change(value: string)
      modifies this
      ensures message == value
    {
      message := value;
    }

    /**
     * `handleSubmit`: hands the untrimmed message to `onSend` and clears the
     * field when the gate lets it through; otherwise sends nothing and keeps
     * the field.
     */
    method HandleSubmit(isLoading: bool) returns (sent: Option<string>)
      modifies this
      ensures sent == if CanSubmit(old(message), isLoading) then Some(old(message)) else None
      ensures message == if sent.Some? then "" else old(message)
    {
      if Trim(message) != [] && !isLoading {
        sent := Some(message);
        message := "";
      } else {
        sent := None;
      }
    }
  }
}
