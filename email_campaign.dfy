/** The e-mail campaign sender: recipients written `Name <address>` or as a bare
    address, a mailing list that refuses duplicates, and the campaign loop that counts
    the messages the mail server accepted.  The server itself is outside the model:
    whether the connection, each send and the final quit succeed are parameters. */
module EmailCampaign {
  import opened Common

  /** Python's `str.isspace`. */
  predicate IsSpace(c: char) {
    c == ' ' || '\t' <= c <= '\r' || '\U{1c}' <= c <= '\U{1f}' || c == '\U{85}' || c == '\U{a0}' ||
    c == '\U{1680}' || '\U{2000}' <= c <= '\U{200a}' || c == '\U{2028}' || c == '\U{2029}' ||
    c == '\U{202f}' || c == '\U{205f}' || c == '\U{3000}'
  }

  function StripLeft(s: string): (r: string)
    ensures |r| <= |s| && r == s[|s| - |r|..]
    ensures r == [] || !IsSpace(r[0])
  {
    if s != [] && IsSpace(s[0]) then StripLeft(s[1..]) else s
  }

  function StripRight(s: string): (r: string)
    ensures |r| <= |s| && r == s[..|r|]
    ensures r == [] || !IsSpace(r[|r| - 1])
  {
    if s != [] && IsSpace(s[|s| - 1]) then StripRight(s[..|s| - 1]) else s
  }

  /** `str.strip()`: the text without its leading and trailing white space. */
  function Strip(s: string): (r: string)
    ensures r == [] || (!IsSpace(r[0]) && !IsSpace(r[|r| - 1]))
    ensures forall c :: c in r ==> c in s
  {
    var r := StripRight(StripLeft(s));
    assert forall c :: c in r ==> c in StripLeft(s);
    r
  }

  /** A text with no white space at either end. */
  predicate Trimmed(s: string) {
    s == [] || (!IsSpace(s[0]) && !IsSpace(s[|s| - 1]))
  }

  lemma StripTrimmed(s: string)
    requires Trimmed(s)
    ensures Strip(s) == s
  {
  }

  /** `s.replace(c, "")`. */
  function RemoveAll(s: string, c: char): (r: string)
    ensures c !in r
    ensures forall d :: d in r ==> d in s
    ensures multiset(r) == multiset(s)[c := 0]
  {
    if s == [] then [] else
      assert s == [s[0]] + s[1..];
      (if s[0] == c then [] else [s[0]]) + RemoveAll(s[1..], c)
  }

  /** Removal works piece by piece, so every other character keeps its place in order. */
  lemma {:induction false} RemoveAllAppend(a: string, b: string, c: char)
    ensures RemoveAll(a + b, c) == RemoveAll(a, c) + RemoveAll(b, c)
  {
    if a == [] {
      assert a + b == b;
    } else {
      assert (a + b)[1..] == a[1..] + b;
      RemoveAllAppend(a[1..], b, c);
    }
  }

  lemma {:induction false} RemoveAllAbsent(s: string, c: char)
    requires c !in s
    ensures RemoveAll(s, c) == s
  {
    if s != [] {
      RemoveAllAbsent(s[1..], c);
      assert s == [s[0]] + s[1..];
    }
  }

  lemma {:induction false} RemoveAllSnoc(s: string, c: char)
    ensures RemoveAll(s + [c], c) == RemoveAll(s, c)
  {
    if s != [] {
      assert (s + [c])[1..] == s[1..] + [c];
      RemoveAllSnoc(s[1..], c);
    }
  }

  const DefaultName: string := "Friend"

  /** The name and address the campaign loop reads out of one recipient entry. */
  function ParseRecipient(recipient: string): (r: (string, string))
    ensures '<' in recipient ==> '<' !in r.0 && '<' !in r.1 && '>' !in r.1
    ensures '<' !in recipient ==> r == (DefaultName, recipient)
  {
    if '<' in recipient then
      var pieces := SplitOn(recipient, '<');
      (Strip(pieces[0]), Strip(RemoveAll(pieces[1], '>')))
    else (DefaultName, recipient)
  }

  /** Any entry with a `<`: the name is the stripped text before the first `<`, the
      address the stripped text up to the next `<` with every `>` removed. */
  lemma ParseRecipientExact(a: string, b: string)
    requires '<' !in a
    ensures ParseRecipient(a + ['<'] + b) == (Strip(a), Strip(RemoveAll(SplitOn(b, '<')[0], '>')))
  {
    var s := a + ['<'] + b;
    assert s[|a|] == '<';
    SplitOnFirst(a, '<', b);
    var pieces := SplitOn(s, '<');
    assert pieces[0] == a;
    assert pieces[1] == SplitOn(b, '<')[0];
  }

  /** How `add_recipient` writes an entry. */
  function FormatRecipient(email: string, name: string): string {
    if name != "" then name + " <" + email + ">" else email
  }

  /** Reading back a formatted entry recovers the name and the address, as long as the
      name has no `<`, the address no `<` or `>`, and neither has white space at its ends.
      An entry written without a name reads back with the default name. */
  lemma {:induction false} FormatParseRoundTrip(email: string, name: string)
    requires '<' !in name && '<' !in email && '>' !in email
    requires Trimmed(name) && Trimmed(email)
    ensures name != "" ==> ParseRecipient(FormatRecipient(email, name)) == (name, email)
    ensures name == "" ==> ParseRecipient(FormatRecipient(email, name)) == (DefaultName, email)
  {
    if name != "" {
      var f := FormatRecipient(email, name);
      assert f == (name + " ") + ['<'] + (email + ">");
      SplitOnFirst(name + " ", '<', email + ">");
      assert '<' !in email + ">";
      SplitOnAbsent(email + ">", '<');
      assert SplitOn(f, '<') == [name + " ", email + ">"];
      assert '<' in f by { assert f[|name| + 1] == '<'; }
      assert StripLeft(name + " ") == name + " ";
      assert IsSpace(' ');
      assert (name + " ")[..|name|] == name;
      assert StripRight(name + " ") == StripRight(name) == name;
      assert Strip(name + " ") == name;
      RemoveAllSnoc(email, '>');
      RemoveAllAbsent(email, '>');
      StripTrimmed(email);
    }
  }

  /** One message the server accepted: the greeting name and the `To` address. */
  datatype Delivery = Delivery(name: string, email: string)

  /** The deliveries of a campaign whose connection held, in recipient order. */
  function Delivered(recipients: seq<string>, sendOk: seq<bool>): (r: seq<Delivery>)
    requires |sendOk| == |recipients|
    ensures |r| <= |recipients|
  {
    if recipients == [] then []
    else
      var p := ParseRecipient(recipients[0]);
      (if sendOk[0] then [Delivery(p.0, p.1)] else []) + Delivered(recipients[1..], sendOk[1..])
  }

  lemma {:induction false} DeliveredSnoc(recipients: seq<string>, sendOk: seq<bool>, r: string, ok: bool)
    requires |sendOk| == |recipients|
    ensures Delivered(recipients + [r], sendOk + [ok]) ==
              Delivered(recipients, sendOk) +
              (if ok then [Delivery(ParseRecipient(r).0, ParseRecipient(r).1)] else [])
  {
    if recipients != [] {
      assert (recipients + [r])[1..] == recipients[1..] + [r];
      assert (sendOk + [ok])[1..] == sendOk[1..] + [ok];
      DeliveredSnoc(recipients[1..], sendOk[1..], r, ok);
    }
  }

  /** A campaign where every send succeeds delivers to every recipient. */
  lemma {:induction false} AllDelivered(recipients: seq<string>, sendOk: seq<bool>)
    requires |sendOk| == |recipients| && forall i :: 0 <= i < |sendOk| ==> sendOk[i]
    ensures |Delivered(recipients, sendOk)| == |recipients|
  {
    if recipients != [] {
      AllDelivered(recipients[1..], sendOk[1..]);
    }
  }

  /** `send_email_campaign`.  `sessionOk` says whether connecting, TLS and login succeed,
      `sendOk[i]` whether sending to recipient `i` succeeds, `quitOk` whether closing the
      connection succeeds.  The result is true exactly when the campaign is enabled, the
      session held and at least one message was accepted. */
  method SendCampaign(enabled: bool, sessionOk: bool, quitOk: bool,
                      recipients: seq<string>, sendOk: seq<bool>)
    returns (result: bool, successCount: nat, deliveries: seq<Delivery>)
    requires |sendOk| == |recipients|
    ensures successCount <= |recipients|
    ensures !enabled || !sessionOk ==> successCount == 0 && deliveries == []
    ensures enabled && sessionOk ==> deliveries == Delivered(recipients, sendOk)
    ensures successCount == |deliveries|
    ensures result <==> enabled && sessionOk && quitOk && successCount > 0
  {
    successCount := 0;
    deliveries := [];
    if !enabled || !sessionOk {
      return false, 0, [];
    }
    for i := 0 to |recipients|
      invariant deliveries == Delivered(recipients[..i], sendOk[..i])
      invariant successCount == |deliveries| <= i
    {
      var parsed := ParseRecipient(recipients[i]);
      assert recipients[..i + 1] == recipients[..i] + [recipients[i]];
      assert sendOk[..i + 1] == sendOk[..i] + [sendOk[i]];
      DeliveredSnoc(recipients[..i], sendOk[..i], recipients[i], sendOk[i]);
      if sendOk[i] {
        deliveries := deliveries + [Delivery(parsed.0, parsed.1)];
        successCount := successCount + 1;
      }
    }
    assert recipients[..|recipients|] == recipients;
    assert sendOk[..|sendOk|] == sendOk;
    result := quitOk && successCount > 0;
  }

  /** The e-mail section of the bot's configuration. */
  class EmailConfig {
    var enabled: bool
    var recipients: seq<string>

    constructor (enabled: bool, recipients: seq<string>)
      ensures this.enabled == enabled && this.recipients == recipients
    {
      this.enabled := enabled;
      this.recipients := recipients;
    }

    /** `add_recipient`: the formatted entry is appended, and true returned, only when it
        is not on the list yet. */
    method AddRecipient(email: string, name: string) returns (added: bool)
      modifies this
      ensures added <==> FormatRecipient(email, name) !in old(recipients)
      ensures added ==> recipients == old(recipients) + [FormatRecipient(email, name)]
      ensures !added ==> recipients == old(recipients)
      ensures FormatRecipient(email, name) in recipients
      ensures enabled == old(enabled)
    {
      var formatted := if name != "" then name + " <" + email + ">" else email;
      if formatted !in recipients {
        recipients := recipients + [formatted];
        return true;
      }
      return false;
    }
  }

  /** Adding the same recipient twice leaves one entry. */
  method AddTwice(config: EmailConfig, email: string, name: string) returns (first: bool, second: bool)
    modifies config
    ensures !second
    ensures first ==> config.recipients == old(config.recipients) + [FormatRecipient(email, name)]
    ensures !first ==> config.recipients == old(config.recipients)
  {
    first := config.AddRecipient(email, name);
    second := config.AddRecipient(email, name);
  }
}
