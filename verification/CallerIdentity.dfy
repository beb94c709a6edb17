/** Who is calling, as read from the identity headers of an INVITE. */
module CallerIdentity {
  import opened Wrappers
  import opened Strings

  /** strings.Trim(s, "\""). */
  function TrimQuotes(s: string): string
    decreases |s|
  {
    if s != [] && s[0] == '"' then TrimQuotes(s[1..])
    else if s != [] && s[|s| - 1] == '"' then TrimQuotes(s[..|s| - 1])
    else s
  }

  /** What stands between the first angle bracket and the next closing one, or everything. */
  function UriOf(raw: string): string {
    var start := IndexOf(raw, '<');
    if start < 0 then raw
    else
      var end := IndexOf(raw[start..], '>');
      if end > 0 then raw[start + 1..start + end] else raw
  }

  function NumberOf(uri: string): string {
    if |uri| >= 4 && ToLower(uri[..4]) == "sip:" then Trim(Before(uri[4..], '@')) else ""
  }

  function DisplayOf(raw: string): string {
    var i := IndexOf(raw, '<');
    if i > 0 then TrimQuotes(Trim(raw[..i])) else ""
  }

  /** The display name and the number of an identity header. */
  function ParseIdentityHeader(header: string): (string, string) {
    var raw := Trim(header);
    if raw == "" then ("", "")
    else
      var number := NumberOf(UriOf(raw));
      (DisplayOf(raw), if number == "" && Contains(raw, "party=") then Trim(Before(raw, ';')) else number)
  }

  datatype From = From(user: string, display: string)

  predicate Yields(header: Option<string>) {
    header.Some? && ParseIdentityHeader(header.value) != ("", "")
  }

  /** The caller's name, or the number in its place, and the number. `headers` are the values of
      P-Asserted-Identity and Remote-Party-ID in the order they are asked. */
  method ExtractCallerID(headers: seq<Option<string>>, from: Option<From>) returns (caller: string, number: string)
    ensures forall i :: 0 <= i < |headers| && Yields(headers[i]) && (forall j :: 0 <= j < i ==> !Yields(headers[j])) ==>
              var (display, n) := ParseIdentityHeader(headers[i].value);
              number == n && caller == FirstNonBlank(display, n)
    ensures (forall i :: 0 <= i < |headers| ==> !Yields(headers[i])) && from.Some? ==>
              number == Trim(from.value.user) && caller == FirstNonBlank(TrimQuotes(Trim(from.value.display)), number)
    ensures (forall i :: 0 <= i < |headers| ==> !Yields(headers[i])) && from.None? ==> caller == "" && number == ""
  {
    for i := 0 to |headers|
      invariant forall j :: 0 <= j < i ==> !Yields(headers[j])
    {
      if headers[i].Some? {
        var (display, n) := ParseIdentityHeader(headers[i].value);
        if display != "" || n != "" {
          return FirstNonBlank(display, n), n;
        }
      }
    }
    if from.Some? {
      number := Trim(from.value.user);
      caller := FirstNonBlank(TrimQuotes(Trim(from.value.display)), number);
    } else {
      caller, number := "", "";
    }
  }

  // ----- the printed form -----

  /** A name-addr with a quoted display name (section 25.1 of RFC 3261). */
  function Print(display: string, number: string, host: string): string {
    "\"" + display + "\" <sip:" + number + "@" + host + ">"
  }

  /** No angle bracket, and no quote at either end. */
  predicate CleanDisplay(display: string) {
    '<' !in display && (display == "" || (display[0] != '"' && display[|display| - 1] != '"'))
  }

  lemma {:induction false} TrimQuotesShrinks(s: string)
    ensures |TrimQuotes(s)| <= |s|
    ensures s != [] && (s[0] == '"' || s[|s| - 1] == '"') ==> |TrimQuotes(s)| < |s|
    decreases |s|
  {
    if s != [] && s[0] == '"' {
      TrimQuotesShrinks(s[1..]);
    } else if s != [] && s[|s| - 1] == '"' {
      TrimQuotesShrinks(s[..|s| - 1]);
    }
  }

  lemma LeadingQuote(s: string)
    ensures TrimQuotes(['"'] + s) == TrimQuotes(s)
  {
    assert (['"'] + s)[1..] == s;
  }

  lemma {:induction false} TrailingQuote(s: string)
    ensures TrimQuotes(s + ['"']) == TrimQuotes(s)
    decreases |s|
  {
    var t := s + ['"'];
    if s == [] {
      assert t[1..] == s;
    } else if s[0] == '"' {
      assert t[1..] == s[1..] + ['"'];
      TrailingQuote(s[1..]);
      assert TrimQuotes(t) == TrimQuotes(t[1..]);
    } else {
      assert t[..|t| - 1] == s && t[|t| - 1] == '"' && t[0] != '"';
      assert TrimQuotes(t) == TrimQuotes(t[..|t| - 1]);
    }
  }

  /** Quotes around a text come off and leave it whole, if and only if it has none at its ends. */
  lemma QuotesComeOff(s: string)
    ensures TrimQuotes(['"'] + s + ['"']) == s <==> s == "" || (s[0] != '"' && s[|s| - 1] != '"')
  {
    TrailingQuote(['"'] + s);
    LeadingQuote(s);
    TrimQuotesShrinks(s);
  }

  lemma PrintedIsTrimmed(display: string, number: string, host: string)
    ensures var raw := Print(display, number, host);
            Trim(raw) == raw && raw != "" && raw[0] == '"'
  {
    TrimStays(Print(display, number, host));
  }

  lemma UriBetween(before: string, inner: string, tail: string)
    requires '<' !in before && '>' !in inner
    ensures UriOf(before + ['<'] + (inner + ['>'] + tail)) == inner
  {
    var raw := before + ['<'] + (inner + ['>'] + tail);
    FirstOccurrence(before, '<', inner + ['>'] + tail);
    assert raw[|before|..] == (['<'] + inner) + ['>'] + tail;
    FirstOccurrence(['<'] + inner, '>', tail);
    assert raw[|before| + 1..|before| + 1 + |inner|] == inner;
  }

  lemma UpToBracket(host: string) returns (cut: string, tail: string)
    ensures host + ['>'] == cut + ['>'] + tail && '>' !in cut
  {
    var s := host + ['>'];
    assert s[|host|] == '>';
    var k := IndexOf(s, '>');
    cut, tail := s[..k], s[k + 1..];
  }

  lemma PrintedParts(display: string, number: string, host: string)
    ensures Print(display, number, host)
            == "\"" + display + "\" " + ['<'] + ("sip:" + number + ['@'] + (host + ['>']))
  {}

  lemma PrintedUri(display: string, number: string, host: string) returns (rest: string)
    requires '<' !in display && '>' !in number
    ensures UriOf(Print(display, number, host)) == "sip:" + number + ['@'] + rest
  {
    var tail;
    rest, tail := UpToBracket(host);
    var before, inner := "\"" + display + "\" ", "sip:" + number + ['@'] + rest;
    UriBetween(before, inner, tail);
    hide UriOf, Print;
    var prefix := "sip:" + number + ['@'];
    assert prefix + (rest + ['>'] + tail) == inner + ['>'] + tail;
    PrintedParts(display, number, host);
    assert Print(display, number, host) == before + ['<'] + (prefix + (host + ['>']));
  }

  /** The number comes back, trimmed, whatever the host is. */
  lemma NumberReturns(display: string, number: string, host: string)
    requires '<' !in display && '>' !in number && '@' !in number && Trim(number) != ""
    ensures ParseIdentityHeader(Print(display, number, host)).1 == Trim(number)
  {
    hide UriOf, Print, NumberOf, Trim, DisplayOf, Contains;
    PrintedIsTrimmed(display, number, host);
    var rest := PrintedUri(display, number, host);
    assert "sip:" + number + ['@'] + rest == "sip:" + (number + ['@'] + rest);
    SipNumber(number, rest);
  }

  lemma DisplayUpTo(before: string, after: string)
    requires '<' !in before && before != ""
    ensures DisplayOf(before + ['<'] + after) == TrimQuotes(Trim(before))
  {
    FirstOccurrence(before, '<', after);
    assert (before + ['<'] + after)[..|before|] == before;
  }

  lemma ParsedDisplay(raw: string)
    requires Trim(raw) == raw != ""
    ensures ParseIdentityHeader(raw).0 == DisplayOf(raw)
  {}

  lemma CleanReturns(display: string, tail: string)
    requires '<' !in display
    ensures DisplayOf("\"" + display + "\" " + (['<'] + tail)) == display <==> CleanDisplay(display)
  {
    var quoted := ['"'] + display + ['"'];
    var before := quoted + " ";
    DisplayUpTo(before, tail);
    assert "\"" + display + "\" " + (['<'] + tail) == before + ['<'] + tail;
    TrimOfPadded(quoted);
    QuotesComeOff(display);
  }

  lemma Regroup(a: string, b: string, c: string, d: string)
    ensures a + (b + ['<'] + c) + d == (a + b) + ['<'] + (c + d)
  {}

  lemma CutShort(display: string, tail: string)
    requires '<' in display
    ensures DisplayOf("\"" + display + tail) != display
  {
    var i := IndexOf(display, '<');
    var before, after := "\"" + display[..i], display[i + 1..] + tail;
    DisplayUpTo(before, after);
    hide DisplayOf, IndexOf, Trim, TrimQuotes;
    assert display == display[..i] + ['<'] + display[i + 1..];
    Regroup("\"", display[..i], display[i + 1..], tail);
    TrimOnce(before);
    TrimLeftStays(before);
    TrimQuotesShrinks(Trim(before));
  }

  /** The display name comes back if and only if it is clean. */
  lemma DisplayReturnsIff(display: string, number: string, host: string)
    ensures ParseIdentityHeader(Print(display, number, host)).0 == display <==> CleanDisplay(display)
  {
    var raw, tail := Print(display, number, host), "sip:" + number + "@" + host + ">";
    PrintedIsTrimmed(display, number, host);
    ParsedDisplay(raw);
    PrintedTails(display, number, host);
    hide DisplayOf, ParseIdentityHeader, Trim, Print;
    if '<' in display {
      CutShort(display, "\" <" + tail);
    } else {
      CleanReturns(display, tail);
    }
  }

  lemma PrintedTails(display: string, number: string, host: string)
    ensures var tail := "sip:" + number + "@" + host + ">";
            && Print(display, number, host) == "\"" + display + "\" " + (['<'] + tail)
            && Print(display, number, host) == "\"" + display + ("\" <" + tail)
  {}

  lemma TrimLeftStays(s: string)
    requires s != [] && !IsSpace(s[0])
    ensures TrimLeft(s) == s && Trim(s) != [] && Trim(s)[0] == s[0]
  {
    RightKeepsFirst(s);
  }

  lemma {:induction false} RightKeepsFirst(s: string)
    requires s != [] && !IsSpace(s[0])
    ensures TrimRight(s) != [] && TrimRight(s)[0] == s[0]
  {
    if IsSpace(s[|s| - 1]) { RightKeepsFirst(s[..|s| - 1]); }
  }

  lemma TrimOfPadded(s: string)
    requires s != [] && !IsSpace(s[0]) && !IsSpace(s[|s| - 1])
    ensures Trim(s + " ") == s
  {
    assert (s + " ")[..|s|] == s;
    assert TrimLeft(s + " ") == s + " ";
    assert TrimRight(s) == s;
  }

  /** The printed form of a clean display name and a number without `@` and `>` parses back to both. */
  lemma RoundTrip(display: string, number: string, host: string)
    requires CleanDisplay(display) && '>' !in number && '@' !in number && Trim(number) == number != ""
    ensures ParseIdentityHeader(Print(display, number, host)) == (display, number)
    ensures Yields(Some(Print(display, number, host)))
  {
    NumberReturns(display, number, host);
    DisplayReturnsIff(display, number, host);
  }

  // ----- the other forms -----

  lemma WithoutBrackets(raw: string)
    requires Trim(raw) == raw != "" && '<' !in raw
    ensures ParseIdentityHeader(raw)
            == ("", if NumberOf(raw) == "" && Contains(raw, "party=") then Trim(Before(raw, ';')) else NumberOf(raw))
  {
    hide NumberOf, Contains, Before, Trim;
  }

  lemma UpToFirst(a: string, c: char, b: string)
    requires c !in a
    ensures Before(a + [c] + b, c) == a
  {
    FirstOccurrence(a, c, b);
    assert (a + [c] + b)[..|a|] == a;
  }

  lemma Halves(a: string, b: string)
    ensures (a + b)[..|a|] == a && (a + b)[|a|..] == b
  {}

  lemma SipNumber(number: string, rest: string)
    requires '@' !in number
    ensures NumberOf("sip:" + (number + ['@'] + rest)) == Trim(number)
  {
    hide Trim, Before;
    Halves("sip:", number + ['@'] + rest);
    UpToFirst(number, '@', rest);
    assert ToLower("sip:") == "sip:";
  }

  /** A URI without brackets yields its number and no display name. */
  lemma BareUri(number: string, host: string)
    requires '<' !in number && '<' !in host && '@' !in number && Trim(number) != "" && host != "" && !IsSpace(host[|host| - 1])
    ensures ParseIdentityHeader("sip:" + number + "@" + host) == ("", Trim(number))
  {
    hide ParseIdentityHeader, NumberOf, Trim, Before, Contains;
    var raw := "sip:" + number + "@" + host;
    TrimStays(raw);
    assert raw == "sip:" + (number + ['@'] + host);
    SipNumber(number, host);
    WithoutBrackets(raw);
  }

  lemma {:induction false} ContainsMiddle(a: string, sub: string, c: string)
    ensures Contains(a + sub + c, sub)
  {
    var s := a + sub + c;
    if a == [] {
      assert s[..|sub|] == sub;
    } else {
      assert s[1..] == a[1..] + sub + c;
      ContainsMiddle(a[1..], sub, c);
    }
  }

  /** A header that is no SIP URI but has a party parameter yields what stands before the first semicolon. */
  lemma PartyNumber(number: string, kind: string)
    requires '<' !in number && ';' !in number && number != "" && !IsSpace(number[0])
    requires '<' !in kind && kind != "" && !IsSpace(kind[|kind| - 1])
    requires |number| >= 4 ==> ToLower(number[..4]) != "sip:"
    ensures ParseIdentityHeader(number + ";party=" + kind) == ("", Trim(number))
  {
    hide ParseIdentityHeader, NumberOf, Trim, Before, Contains;
    var raw, rest := number + ";party=" + kind, "party=" + kind;
    TrimStays(raw);
    assert raw == (number + ";") + "party=" + kind && raw == number + [';'] + rest;
    ContainsMiddle(number + ";", "party=", kind);
    UpToFirst(number, ';', rest);
    NoUri(number, rest);
    WithoutBrackets(raw);
  }

  lemma NoUri(number: string, rest: string)
    requires |number| >= 4 ==> ToLower(number[..4]) != "sip:"
    ensures NumberOf(number + [';'] + rest) == ""
  {
    var raw := number + [';'] + rest;
    if |number| >= 4 {
      assert raw[..4] == number[..4];
    } else if |raw| >= 4 {
      assert ToLower(raw[..4])[|number|] == ';' && "sip:"[|number|] != ';';
    }
  }
}
