/** Audio negotiation: the payload type of PCMU, the address to send to, and the offer the gateway prints. */
module SdpAudio {
  import opened Wrappers
  import opened Strings

  datatype Attribute = Attribute(key: string, value: string)

  datatype Media = Media(kind: string, port: int, formats: seq<string>, connection: Option<string>, attributes: seq<Attribute>)

  datatype Description = Description(connection: Option<string>, media: seq<Media>)

  // ----- the payload type of PCMU -----

  /** The format list offers payload type `n`; only 0 to 255 are taken notice of. */
  predicate Offered(formats: seq<string>, n: int) {
    0 <= n <= 255 && exists f <- formats :: Atoi(Trim(f)) == Some(n)
  }

  /** The attribute is an rtpmap that names PCMU for payload type `n` (section 6.6 of RFC 8866). */
  predicate NamesPCMU(a: Attribute, n: int) {
    && EqualFold(a.key, "rtpmap") && Trim(a.value) != ""
    && |Fields(a.value)| >= 2 && Atoi(Fields(a.value)[0]) == Some(n) && 0 <= n <= 255
    && EqualFold(Before(Fields(a.value)[1], '/'), "PCMU")
  }

  /** The attribute names PCMU for a payload type that is offered. */
  ghost predicate Qualifies(md: Media, a: Attribute) {
    exists n :: NamesPCMU(a, n) && Offered(md.formats, n)
  }

  /** What the search must find: format 0, which is PCMU by itself, or the type of the first attribute that
      qualifies, or nothing. */
  ghost predicate IsPCMU(md: Media, found: Option<int>) {
    if Offered(md.formats, 0) then found == Some(0)
    else if found.Some? then
      && Offered(md.formats, found.value)
      && exists i :: 0 <= i < |md.attributes| && NamesPCMU(md.attributes[i], found.value)
                     && forall j :: 0 <= j < i ==> !Qualifies(md, md.attributes[j])
    else
      forall a <- md.attributes :: !Qualifies(md, a)
  }

  /** There is such a type if and only if 0 is offered or an attribute qualifies; it is offered and fits a byte. */
  lemma FoundIff(md: Media, found: Option<int>)
    requires IsPCMU(md, found)
    ensures found.Some? <==> Offered(md.formats, 0) || exists a <- md.attributes :: Qualifies(md, a)
    ensures found.Some? ==> 0 <= found.value <= 255 && Offered(md.formats, found.value)
  {
    if found.Some? && !Offered(md.formats, 0) {
      var i :| 0 <= i < |md.attributes| && NamesPCMU(md.attributes[i], found.value);
      assert Qualifies(md, md.attributes[i]);
      assert md.attributes[i] in md.attributes;
    }
  }

  /** Payload types as they are printed are offered, up to 255, and no others are. */
  lemma PrintedFormats(formats: seq<string>, types: seq<nat>, n: int)
    requires |formats| == |types| && forall i :: 0 <= i < |types| ==> types[i] < INT64_LIMIT && formats[i] == Decimal(types[i])
    ensures Offered(formats, n) <==> n <= 255 && n in types
  {
    hide Trim, Atoi, Decimal;
    forall i | 0 <= i < |types|
      ensures Atoi(Trim(formats[i])) == Some(types[i])
    {
      AtoiDecimal(types[i]);
      TrimmedDigits(formats[i]);
    }
    if i :| 0 <= i < |types| && types[i] == n { assert formats[i] in formats; }
  }

  lemma TrimmedDigits(s: string)
    requires Digits(s) && s != ""
    ensures Trim(s) == s
  {
    DigitsHaveNo(s, ' ');
    assert s[0] in s && s[|s| - 1] in s;
    TrimStays(s);
  }

  lemma TwoWords(first: string, second: string)
    requires first != "" && NoSpace(first) && second != "" && NoSpace(second)
    ensures Fields(first + " " + second) == [first, second] && Trim(first + " " + second) != ""
  {
    FirstField(first, second);
    FirstField(second, "");
    var s := first + " " + second;
    assert s[0] == first[0] && first[0] in first;
    NotBlank(s);
  }

  /** An rtpmap as it is printed names PCMU for its payload type and for no other; one for another encoding does not. */
  lemma PrintedRtpmap(n: nat, encoding: string, rate: string)
    requires n <= 255 && encoding != "" && NoSpace(encoding) && '/' !in encoding && NoSpace(rate)
    ensures var a := Attribute("rtpmap", Decimal(n) + " " + (encoding + "/" + rate));
            forall m :: NamesPCMU(a, m) <==> m == n && EqualFold(encoding, "PCMU")
  {
    hide Trim, Fields, Decimal, Atoi, Before, IndexOf, ToLower;
    var word, coded := Decimal(n), encoding + "/" + rate;
    AtoiDecimal(n);
    DigitsHaveNo(word, ' ');
    TwoWords(word, coded);
    FirstOccurrence(encoding, '/', rate);
    assert coded == encoding + ['/'] + rate;
    BeforeIs(coded, '/');
  }

  lemma BeforeIs(s: string, c: char)
    ensures IndexOf(s, c) >= 0 ==> Before(s, c) == s[..IndexOf(s, c)]
  {}

  lemma NotBlank(s: string)
    requires s != "" && !IsSpace(s[0])
    ensures Trim(s) != ""
  {
    var left, right := TrimMeans(s);
    assert s[0] in s;
    hide Trim;
  }

  /** The first loop: the offered types, unless 0 is among them. */
  method CollectFormats(formats: seq<string>) returns (formatSet: set<int>, zero: bool)
    ensures zero <==> Offered(formats, 0)
    ensures !zero ==> forall n :: n in formatSet <==> Offered(formats, n)
  {
    hide Atoi, Trim;
    formatSet, zero := {}, false;
    for i := 0 to |formats|
      invariant forall n :: n in formatSet <==> Offered(formats[..i], n)
      invariant !Offered(formats[..i], 0)
    {
      assert formats[..i + 1] == formats[..i] + [formats[i]];
      var n := Atoi(Trim(formats[i]));
      if n.Some? && 0 <= n.value <= 255 {
        formatSet := formatSet + {n.value};
        if n.value == 0 {
          assert formats[i] in formats;
          return formatSet, true;
        }
      }
    }
    assert formats[..|formats|] == formats;
  }

  method FindPCMUPayload(md: Media) returns (found: Option<int>)
    ensures IsPCMU(md, found)
  {
    hide Offered, Atoi, Trim, Fields, EqualFold, Before;
    var formatSet, zero := CollectFormats(md.formats);
    if zero { return Some(0); }
    for i := 0 to |md.attributes|
      invariant forall j :: 0 <= j < i ==> !Qualifies(md, md.attributes[j])
    {
      var a := md.attributes[i];
      if EqualFold(a.key, "rtpmap") && Trim(a.value) != "" {
        var parts := Fields(a.value);
        if |parts| >= 2 {
          var pt := Atoi(parts[0]);
          if pt.Some? && 0 <= pt.value <= 255 && EqualFold(Before(parts[1], '/'), "PCMU") && pt.value in formatSet {
            assert NamesPCMU(a, pt.value);
            return pt;
          }
        }
      }
    }
    found := None;
  }

  // ----- the address to send to -----

  /** The address without a multicast suffix. */
  function SanitizeAddress(address: string): string {
    var a := Trim(address);
    if IndexOf(a, '/') > 0 then Before(a, '/') else a
  }

  /** A suffix after a slash is cut off; without one the trimmed address stays. */
  lemma SanitizedIs(ip: string, suffix: string)
    requires ip != "" && NoSpace(ip) && '/' !in ip && suffix != "" && NoSpace(suffix)
    ensures SanitizeAddress(ip + "/" + suffix) == ip && SanitizeAddress(ip) == ip
  {
    var a := ip + "/" + suffix;
    assert a == ip + ['/'] + suffix;
    assert a[0] == ip[0] && ip[0] in ip && ip[|ip| - 1] in ip;
    assert a[|a| - 1] == suffix[|suffix| - 1] && suffix[|suffix| - 1] in suffix;
    TrimStays(a);
    TrimStays(ip);
    FirstOccurrence(ip, '/', suffix);
    assert IndexOf(ip, '/') < 0;
  }

  /** The last connection line of the first `n` audio sections, if one of them has one. */
  function LastConnection(media: seq<Media>, n: nat): Option<string>
    requires n <= |media|
  {
    if n == 0 then None
    else if media[n - 1].kind == "audio" && media[n - 1].connection.Some? then Some(SanitizeAddress(media[n - 1].connection.value))
    else LastConnection(media, n - 1)
  }

  function SessionHost(d: Description): string {
    if d.connection.Some? then SanitizeAddress(d.connection.value) else ""
  }

  /** The host the loop has in hand for section `i`. */
  function HostFor(d: Description, i: nat): string
    requires i < |d.media|
  {
    var last := LastConnection(d.media, i + 1);
    if last.Some? then last.value else SessionHost(d)
  }

  /** The host that belongs to section `i` (section 5.7 of RFC 8866): its own connection line, or the session's. */
  function OwnHost(d: Description, i: nat): string
    requires i < |d.media|
  {
    if d.media[i].connection.Some? then SanitizeAddress(d.media[i].connection.value) else SessionHost(d)
  }

  predicate Usable(d: Description, i: nat)
    requires i < |d.media|
  {
    d.media[i].kind == "audio" && HostFor(d, i) != "" && d.media[i].port != 0
  }

  datatype Failure = Malformed | NotPCMU | Unresolvable | NoAudio

  datatype Target = Target(host: string, port: int, payload: int)

  predicate FirstUsable(d: Description, i: nat)
    requires i < |d.media|
  {
    Usable(d, i) && forall j :: 0 <= j < i ==> !Usable(d, j)
  }

  /** The first audio section with a host and a port decides; `resolves` tells which addresses the resolver knows. */
  ghost predicate IsTarget(d: Description, resolves: (string, int) -> bool, r: Result<Target, Failure>) {
    && (forall i :: 0 <= i < |d.media| && FirstUsable(d, i) ==>
          exists pt :: IsPCMU(d.media[i], pt) &&
            r == if pt.None? then Err(NotPCMU)
                 else if !resolves(HostFor(d, i), d.media[i].port) then Err(Unresolvable)
                 else Ok(Target(HostFor(d, i), d.media[i].port, pt.value)))
    && ((forall i :: 0 <= i < |d.media| ==> !Usable(d, i)) ==> r == Err(NoAudio))
  }

  method AudioTarget(d: Description, resolves: (string, int) -> bool) returns (r: Result<Target, Failure>)
    ensures IsTarget(d, resolves, r)
  {
    hide IsPCMU, SanitizeAddress, SessionHost;
    var host := SessionHost(d);
    for i := 0 to |d.media|
      invariant host == var last := LastConnection(d.media, i); if last.Some? then last.value else SessionHost(d)
      invariant forall j :: 0 <= j < i ==> !Usable(d, j)
    {
      var md := d.media[i];
      if md.kind == "audio" {
        if md.connection.Some? { host := SanitizeAddress(md.connection.value); }
        if host != "" && md.port != 0 {
          assert FirstUsable(d, i);
          var pt := FindPCMUPayload(md);
          if pt.None? { return Err(NotPCMU); }
          if !resolves(host, md.port) { return Err(Unresolvable); }
          return Ok(Target(host, md.port, pt.value));
        }
      }
    }
    return Err(NoAudio);
  }

  /** The host used for an audio section is its own if and only if it has a connection line itself, no audio section
      before it has one, or the last of those names the session's host: the loop carries the host over. */
  lemma HostIsOwnIff(d: Description, i: nat)
    requires i < |d.media| && d.media[i].kind == "audio"
    ensures HostFor(d, i) == OwnHost(d, i)
            <==> d.media[i].connection.Some? || LastConnection(d.media, i).None?
                 || LastConnection(d.media, i).value == SessionHost(d)
  {}

  predicate Connected(md: Media) {
    md.kind == "audio" && md.connection.Some?
  }

  /** What is carried over is the last connection line of an audio section. */
  lemma {:induction false} LastConnectionIs(media: seq<Media>, n: nat)
    requires n <= |media|
    ensures LastConnection(media, n).None? ==> forall j :: 0 <= j < n ==> !Connected(media[j])
    ensures LastConnection(media, n).Some? ==>
              exists j :: 0 <= j < n && Connected(media[j]) && (forall k :: j < k < n ==> !Connected(media[k]))
                          && LastConnection(media, n).value == SanitizeAddress(media[j].connection.value)
  {
    hide SanitizeAddress;
    if n > 0 { LastConnectionIs(media, n - 1); }
  }

  lemma {:induction false} NoneBefore(media: seq<Media>, n: nat)
    requires n <= |media| && forall j :: 0 <= j < n ==> !Connected(media[j])
    ensures LastConnection(media, n).None?
  {
    if n > 0 { NoneBefore(media, n - 1); }
  }

  /** The section names the address itself, or leaves it to the session. */
  predicate Names(d: Description, i: nat, ip: string)
    requires i < |d.media|
  {
    d.media[i].connection == Some(ip) || (d.media[i].connection.None? && d.connection == Some(ip))
  }

  lemma NamedIsFirst(d: Description, i: nat, ip: string)
    requires i < |d.media| && d.media[i].kind == "audio" && d.media[i].port != 0 && Names(d, i, ip)
    requires ip != "" && NoSpace(ip) && '/' !in ip
    requires forall j :: 0 <= j < i && d.media[j].kind == "audio" ==> d.media[j].port == 0 && d.media[j].connection.None?
    ensures HostFor(d, i) == ip && FirstUsable(d, i)
  {
    CleanAddress(ip);
    NoneBefore(d.media, i);
    hide SanitizeAddress, NoSpace;
  }

  /** When no section before it is audio with a port or a connection line, an audio section with a port decides. */
  lemma FirstAudioDecides(d: Description, i: nat, ip: string, resolves: (string, int) -> bool, r: Result<Target, Failure>)
    requires IsTarget(d, resolves, r)
    requires i < |d.media| && d.media[i].kind == "audio" && d.media[i].port != 0 && Names(d, i, ip)
    requires ip != "" && NoSpace(ip) && '/' !in ip
    requires forall j :: 0 <= j < i && d.media[j].kind == "audio" ==> d.media[j].port == 0 && d.media[j].connection.None?
    ensures var md := d.media[i];
            var found := Offered(md.formats, 0) || exists a <- md.attributes :: Qualifies(md, a);
            && (r == Err(NotPCMU) <==> !found)
            && (r == Err(Unresolvable) <==> found && !resolves(ip, md.port))
            && (r.Ok? <==> found && resolves(ip, md.port))
            && (r.Ok? ==> r.value.host == ip && r.value.port == md.port && IsPCMU(md, Some(r.value.payload)))
  {
    NamedIsFirst(d, i, ip);
    hide IsPCMU, Offered, Qualifies, NoSpace, HostFor, FirstUsable, Names;
    var pt :| IsPCMU(d.media[i], pt) &&
      r == if pt.None? then Err(NotPCMU)
           else if !resolves(HostFor(d, i), d.media[i].port) then Err(Unresolvable)
           else Ok(Target(HostFor(d, i), d.media[i].port, pt.value));
    FoundIff(d.media[i], pt);
  }

  /** Without an audio section that has a port there is nothing to send to, whatever else is described. */
  lemma NoAudioToSendTo(d: Description, resolves: (string, int) -> bool, r: Result<Target, Failure>)
    requires IsTarget(d, resolves, r) && forall md <- d.media :: md.kind != "audio" || md.port == 0
    ensures r == Err(NoAudio)
  {
    hide IsPCMU, HostFor;
  }

  // ----- reading a description -----

  function StripCR(line: string): string {
    if line != [] && line[|line| - 1] == '\r' then line[..|line| - 1] else line
  }

  function Lines(s: string): seq<string>
    decreases |s|
  {
    var i := IndexOf(s, '\n');
    if s == [] then [] else if i < 0 then [StripCR(s)] else [StripCR(s[..i])] + Lines(s[i + 1..])
  }

  /** The last section with these attributes added. */
  function WithAttributes(d: Description, more: seq<Attribute>): (r: Description)
    requires d.media != []
    ensures r.media != []
  {
    var last := |d.media| - 1;
    d.(media := d.media[last := d.media[last].(attributes := d.media[last].attributes + more)])
  }

  function AddAttribute(d: Description, a: Attribute): Description {
    if d.media == [] then d else WithAttributes(d, [a])
  }

  function SetConnection(d: Description, address: string): Description {
    if d.media == [] then d.(connection := Some(address))
    else
      var last := |d.media| - 1;
      d.(media := d.media[last := d.media[last].(connection := Some(address))])
  }

  function AttributeOf(value: string): Attribute {
    var i := IndexOf(value, ':');
    if i < 0 then Attribute(value, "") else Attribute(value[..i], value[i + 1..])
  }

  /** One line of a description (section 5 of RFC 8866). */
  function ReadLine(d: Description, line: string): Option<Description> {
    if |line| < 2 || line[1] != '=' then None
    else
      var value := line[2..];
      var words := Fields(value);
      match line[0]
      case 'c' => if |words| == 3 then Some(SetConnection(d, words[2])) else None
      case 'm' =>
        if |words| < 4 || Atoi(Before(words[1], '/')).None? then None
        else Some(d.(media := d.media + [Media(words[0], Atoi(Before(words[1], '/')).value, words[3..], None, [])]))
      case 'a' => Some(AddAttribute(d, AttributeOf(value)))
      case _ => Some(d)
  }

  function ReadLines(d: Description, lines: seq<string>): Option<Description>
    decreases lines
  {
    if lines == [] then Some(d)
    else
      var next := ReadLine(d, lines[0]);
      if next.None? then None else ReadLines(next.value, lines[1..])
  }

  function ReadDescription(text: string): Option<Description> {
    ReadLines(Description(None, []), Lines(text))
  }

  method ParseSIPAudioTarget(text: string, resolves: (string, int) -> bool) returns (r: Result<Target, Failure>)
    ensures var d := ReadDescription(text); if d.None? then r == Err(Malformed) else IsTarget(d.value, resolves, r)
  {
    hide IsTarget, ReadDescription;
    var d := ReadDescription(text);
    if d.None? { return Err(Malformed); }
    r := AudioTarget(d.value, resolves);
  }

  // ----- the printed offer -----

  function Unlines(lines: seq<string>): string {
    if lines == [] then "" else lines[0] + "\r\n" + Unlines(lines[1..])
  }

  function AttributeLine(key: string, value: string): string {
    "a=" + key + ":" + value
  }

  lemma AttributeLineIs(key: string, value: string)
    ensures var line := AttributeLine(key, value);
            && |line| >= 2 && line[0] == 'a' && line[1] == '=' && line[2..] == key + [':'] + value
  {}

  function OfferAttributes(): seq<string> {
    [AttributeLine("rtpmap", "0 PCMU/8000"), AttributeLine("rtpmap", "101 telephone-event/8000"),
     AttributeLine("fmtp", "101 0-16"), AttributeLine("ptime", "20"), "a=" + "sendrecv"]
  }

  function OriginLine(ip: string, sid: nat): string {
    "o=- " + Decimal(sid) + " " + Decimal(sid) + " IN IP4 " + ip
  }

  function MediaLine(port: nat): string {
    "m=audio " + Decimal(port) + " RTP/AVP 0 101"
  }

  function OfferLines(ip: string, port: nat, sid: nat): seq<string> {
    ["v=0"] + ([OriginLine(ip, sid)] + (["s=callfxo"] + (["c=IN IP4 " + ip] + (["t=0 0"]
      + ([MediaLine(port)] + OfferAttributes())))))
  }

  /** buildSIPSDPOffer; `sid` is the clock reading it uses as the session's identifier and version. */
  function BuildSIPSDPOffer(ip: string, port: nat, sid: nat): string {
    Unlines(OfferLines(ip, port, sid))
  }

  lemma OneLine(line: string, rest: string)
    requires '\n' !in line
    ensures Lines(line + "\r\n" + rest) == [line] + Lines(rest)
  {
    var s := (line + ['\r']) + ['\n'] + rest;
    assert line + "\r\n" + rest == s;
    FirstOccurrence(line + ['\r'], '\n', rest);
    assert s[..|line| + 1] == line + ['\r'] && s[|line| + 2..] == rest;
    assert (line + ['\r'])[..|line|] == line;
  }

  lemma {:induction false} LinesOfUnlines(lines: seq<string>)
    requires forall line <- lines :: '\n' !in line
    ensures Lines(Unlines(lines)) == lines
  {
    if lines != [] {
      LinesOfUnlines(lines[1..]);
      OneLine(lines[0], Unlines(lines[1..]));
      hide Lines;
    }
  }

  lemma ReadNext(d: Description, line: string, rest: seq<string>)
    requires ReadLine(d, line).Some?
    ensures ReadLines(d, [line] + rest) == ReadLines(ReadLine(d, line).value, rest)
  {
    assert ([line] + rest)[1..] == rest;
  }

  /** What the attribute lines say. */
  function AttributesIn(lines: seq<string>): (r: seq<Attribute>)
    requires forall line <- lines :: |line| >= 2
    ensures |r| == |lines| && forall i :: 0 <= i < |r| ==> r[i] == AttributeOf(lines[i][2..])
  {
    seq(|lines|, i requires 0 <= i < |lines| => AttributeOf(lines[i][2..]))
  }

  lemma WithNone(d: Description)
    requires d.media != []
    ensures WithAttributes(d, []) == d
  {
    var md := d.media[|d.media| - 1];
    assert md.attributes + [] == md.attributes;
  }

  lemma WithBoth(d: Description, some: seq<Attribute>, more: seq<Attribute>)
    requires d.media != []
    ensures WithAttributes(WithAttributes(d, some), more) == WithAttributes(d, some + more)
  {
    var md := d.media[|d.media| - 1];
    assert md.attributes + some + more == md.attributes + (some + more);
  }

  lemma ReadAttribute(d: Description, line: string)
    requires d.media != [] && |line| >= 2 && line[0] == 'a' && line[1] == '='
    ensures ReadLine(d, line) == Some(WithAttributes(d, [AttributeOf(line[2..])]))
  {
    hide AttributeOf, Fields;
  }

  /** Attribute lines are added in order and leave everything else of the description alone. */
  lemma {:induction false} ReadAttributes(d: Description, lines: seq<string>)
    requires d.media != [] && forall line <- lines :: |line| >= 2 && line[0] == 'a' && line[1] == '='
    ensures ReadLines(d, lines) == Some(WithAttributes(d, AttributesIn(lines)))
    decreases lines
  {
    hide WithAttributes, ReadLine, AttributeOf;
    if lines != [] {
      var first := [AttributeOf(lines[0][2..])];
      ReadAttribute(d, lines[0]);
      ReadAttributes(WithAttributes(d, first), lines[1..]);
      WithBoth(d, first, AttributesIn(lines[1..]));
      assert AttributesIn(lines) == first + AttributesIn(lines[1..]);
    } else {
      WithNone(d);
      assert AttributesIn(lines) == [];
    }
  }

  lemma DigitsHaveNo(s: string, c: char)
    requires Digits(s) && !IsDigit(c)
    ensures c !in s && NoSpace(s)
  {}

  lemma AtoiDecimal(n: nat)
    requires n < INT64_LIMIT
    ensures Atoi(Decimal(n)) == Some(n) && Before(Decimal(n), '/') == Decimal(n)
  {
    DigitsHaveNo(Decimal(n), '/');
    assert IsDigit(Decimal(n)[0]);
  }

  lemma ConnectionWords(ip: string)
    requires ip != "" && NoSpace(ip)
    ensures Fields("IN" + " " + ("IP4" + " " + ip)) == ["IN", "IP4", ip]
  {
    hide Fields;
    FirstField("IN", "IP4" + " " + ip);
    FirstField("IP4", ip);
    FirstField(ip, "");
  }

  lemma ReadsConnection(d: Description, ip: string)
    requires d.media == [] && ip != "" && NoSpace(ip)
    ensures ReadLine(d, "c=IN IP4 " + ip) == Some(d.(connection := Some(ip)))
  {
    ConnectionWords(ip);
    hide Fields, NoSpace;
    assert ("c=IN IP4 " + ip)[2..] == "IN" + " " + ("IP4" + " " + ip);
  }

  lemma FirstTwoFields(first: string, second: string, rest: string)
    requires first != "" && NoSpace(first) && second != "" && NoSpace(second)
    ensures Fields(first + " " + (second + " " + rest)) == [first, second] + Fields(rest)
  {
    hide *;
    FirstField(first, second + " " + rest);
    FirstField(second, rest);
  }

  lemma NoSpaceIn()
    ensures NoSpace("audio")
  {}

  lemma MediaWords(number: string)
    requires Digits(number)
    ensures Fields("audio" + " " + (number + " " + ("RTP/AVP" + " " + ("0" + " " + "101"))))
            == ["audio", number, "RTP/AVP", "0", "101"]
  {
    assert number != [];
    hide *;
    NoSpaceIn();
    DigitsHaveNo(number, '/');
    LastWords();
    FirstTwoFields("audio", number, "RTP/AVP" + " " + ("0" + " " + "101"));
  }

  lemma LastWords()
    ensures Fields("RTP/AVP" + " " + ("0" + " " + "101")) == ["RTP/AVP", "0", "101"]
  {
    hide Fields;
    FirstField("RTP/AVP", "0" + " " + "101");
    FirstField("0", "101");
    FirstField("101", "");
  }

  lemma MediaLineParts(port: nat)
    ensures var line := MediaLine(port);
            && |line| >= 2 && line[0] == 'm' && line[1] == '='
            && line[2..] == "audio" + " " + (Decimal(port) + " " + ("RTP/AVP" + " " + ("0" + " " + "101")))
  {
    hide Decimal;
  }

  lemma ReadsMedia(d: Description, port: nat)
    requires port < INT64_LIMIT
    ensures ReadLine(d, MediaLine(port)) == Some(d.(media := d.media + [Media("audio", port, ["0", "101"], None, [])]))
  {
    MediaLineParts(port);
    MediaWords(Decimal(port));
    AtoiDecimal(port);
    hide Fields, MediaLine, Decimal, Digits, DigitsValue, Atoi, Before;
    assert ["audio", Decimal(port), "RTP/AVP", "0", "101"][3..] == ["0", "101"];
  }

  lemma OtherLine(d: Description, line: string)
    requires |line| >= 2 && line[1] == '=' && line[0] != 'c' && line[0] != 'm' && line[0] != 'a'
    ensures ReadLine(d, line) == Some(d)
  {}

  /** The attributes the offer names: PCMU and telephone events, 20 ms packets, in both directions. */
  function OfferedAttributes(): seq<Attribute> {
    [Attribute("rtpmap", "0 PCMU/8000"), Attribute("rtpmap", "101 telephone-event/8000"), Attribute("fmtp", "101 0-16"),
     Attribute("ptime", "20"), Attribute("sendrecv", "")]
  }

  lemma KeyAndValue(key: string, value: string)
    requires ':' !in key
    ensures |AttributeLine(key, value)| >= 2 && AttributeOf(AttributeLine(key, value)[2..]) == Attribute(key, value)
  {
    AttributeLineIs(key, value);
    FirstOccurrence(key, ':', value);
  }

  lemma FlagAlone(flag: string)
    requires ':' !in flag
    ensures AttributeOf(("a=" + flag)[2..]) == Attribute(flag, "")
  {
    assert ("a=" + flag)[2..] == flag;
  }

  lemma AttributesRead(a: Attribute, b: Attribute, c: Attribute, d: Attribute, flag: string)
    requires ':' !in a.key && ':' !in b.key && ':' !in c.key && ':' !in d.key && ':' !in flag
    ensures var lines := [AttributeLine(a.key, a.value), AttributeLine(b.key, b.value), AttributeLine(c.key, c.value),
                          AttributeLine(d.key, d.value), "a=" + flag];
            (forall line <- lines :: |line| >= 2) && AttributesIn(lines) == [a, b, c, d, Attribute(flag, "")]
  {
    KeyAndValue(a.key, a.value);
    KeyAndValue(b.key, b.value);
    KeyAndValue(c.key, c.value);
    KeyAndValue(d.key, d.value);
    FlagAlone(flag);
    hide AttributeOf, AttributeLine;
  }

  lemma OfferReadsAs()
    ensures (forall line <- OfferAttributes() :: |line| >= 2) && AttributesIn(OfferAttributes()) == OfferedAttributes()
  {
    hide AttributeOf, AttributeLine, AttributesIn;
    AttributesRead(Attribute("rtpmap", "0 PCMU/8000"), Attribute("rtpmap", "101 telephone-event/8000"),
                   Attribute("fmtp", "101 0-16"), Attribute("ptime", "20"), "sendrecv");
  }

  lemma AttributeLines()
    ensures forall line <- OfferAttributes() :: |line| >= 2 && line[0] == 'a' && line[1] == '='
  {}

  lemma OriginParts(ip: string, sid: nat)
    ensures |OriginLine(ip, sid)| >= 2 && OriginLine(ip, sid)[0] == 'o' && OriginLine(ip, sid)[1] == '='
  {
    hide Decimal;
  }

  lemma OfferEnds(d: Description)
    requires |d.media| == 1 && d.media[0].attributes == []
    ensures ReadLines(d, OfferAttributes()) == Some(d.(media := [d.media[0].(attributes := OfferedAttributes())]))
  {
    hide OfferedAttributes, AttributesIn, OfferAttributes, ReadLines, WithAttributes;
    AttributeLines();
    OfferReadsAs();
    ReadAttributes(d, OfferAttributes());
    OnlySection(d, OfferedAttributes());
  }

  lemma OnlySection(d: Description, more: seq<Attribute>)
    requires |d.media| == 1 && d.media[0].attributes == []
    ensures WithAttributes(d, more) == d.(media := [d.media[0].(attributes := more)])
  {
    assert [] + more == more;
  }

  /** Reading the lines of the printed offer. */
  lemma OfferLinesRead(ip: string, port: nat, sid: nat)
    requires ip != "" && NoSpace(ip) && port < INT64_LIMIT
    ensures var d := ReadLines(Description(None, []), OfferLines(ip, port, sid));
            && d.Some? && d.value.connection == Some(ip) && |d.value.media| == 1
            && d.value.media[0] == Media("audio", port, ["0", "101"], None, OfferedAttributes())
  {
    var d := Description(None, []);
    var r6 := OfferAttributes();
    var r5 := [MediaLine(port)] + r6;
    var r4 := ["t=0 0"] + r5;
    var r3 := ["c=IN IP4 " + ip] + r4;
    var r2 := ["s=callfxo"] + r3;
    var r1 := [OriginLine(ip, sid)] + r2;
    var d1 := d.(connection := Some(ip));
    var d2 := d1.(media := [Media("audio", port, ["0", "101"], None, [])]);
    OtherLine(d, "v=0");
    OriginParts(ip, sid);
    OtherLine(d, OriginLine(ip, sid));
    OtherLine(d, "s=callfxo");
    ReadsConnection(d, ip);
    OtherLine(d1, "t=0 0");
    ReadsMedia(d1, port);
    assert d1.media + d2.media == d2.media;
    OfferEnds(d2);
    hide OfferedAttributes, AttributesIn, ReadLine, ReadLines, MediaLine, OriginLine, OfferAttributes, NoSpace;
    ReadNext(d, "v=0", r1);
    ReadNext(d, OriginLine(ip, sid), r2);
    ReadNext(d, "s=callfxo", r3);
    ReadNext(d, "c=IN IP4 " + ip, r4);
    ReadNext(d1, "t=0 0", r5);
    ReadNext(d1, MediaLine(port), r6);
  }

  /** Reading the printed offer gives one audio section with its port and formats, and the session's address. */
  lemma OfferReads(ip: string, port: nat, sid: nat)
    requires ip != "" && NoSpace(ip) && port < INT64_LIMIT
    ensures var d := ReadDescription(BuildSIPSDPOffer(ip, port, sid));
            && d.Some? && d.value.connection == Some(ip) && |d.value.media| == 1
            && d.value.media[0] == Media("audio", port, ["0", "101"], None, OfferedAttributes())
  {
    NoNewlines(ip, port, sid);
    OfferLinesRead(ip, port, sid);
    hide Lines, Unlines, ReadLines, OfferLines, NoSpace;
    LinesOfUnlines(OfferLines(ip, port, sid));
  }

  lemma SpaceFree(s: string)
    requires NoSpace(s)
    ensures '\n' !in s
  {}

  lemma NoNewlines(ip: string, port: nat, sid: nat)
    requires NoSpace(ip)
    ensures forall line <- OfferLines(ip, port, sid) :: '\n' !in line
  {
    SpaceFree(ip);
    OriginOneLine(ip, sid);
    MediaOneLine(port);
    AttributesOneLine();
    hide NoSpace, OriginLine, MediaLine, OfferAttributes;
    assert '\n' !in "c=IN IP4 " + ip;
    forall line | line in OfferLines(ip, port, sid)
      ensures '\n' !in line
    {
      assert line == "v=0" || line == OriginLine(ip, sid) || line == "s=callfxo" || line == "c=IN IP4 " + ip
          || line == "t=0 0" || line == MediaLine(port) || line in OfferAttributes();
    }
  }

  lemma OriginOneLine(ip: string, sid: nat)
    requires '\n' !in ip
    ensures '\n' !in OriginLine(ip, sid)
  {
    DigitsHaveNo(Decimal(sid), '\n');
    hide Digits, DigitsValue, Decimal;
  }

  lemma MediaOneLine(port: nat)
    ensures '\n' !in MediaLine(port)
  {
    DigitsHaveNo(Decimal(port), '\n');
    hide Digits, DigitsValue, Decimal;
  }

  lemma AttributesOneLine()
    ensures forall line <- OfferAttributes() :: '\n' !in line
  {}

  /** What buildSIPSDPOffer prints for a literal address and a port other than zero is parsed back to that address,
      that port and payload type 0, by the reader of this model. */
  lemma OfferRoundTrip(ip: string, port: nat, sid: nat, resolves: (string, int) -> bool, r: Result<Target, Failure>)
    requires ip != "" && NoSpace(ip) && '/' !in ip && 0 < port < 0x1_0000 && resolves(ip, port)
    requires ReadDescription(BuildSIPSDPOffer(ip, port, sid)).Some? ==>
               IsTarget(ReadDescription(BuildSIPSDPOffer(ip, port, sid)).value, resolves, r)
    ensures r == Ok(Target(ip, port, 0))
  {
    OfferReads(ip, port, sid);
    var d := ReadDescription(BuildSIPSDPOffer(ip, port, sid)).value;
    hide ReadDescription, BuildSIPSDPOffer;
    OneSection(d, ip, port, resolves, r);
  }

  lemma OneSection(d: Description, ip: string, port: nat, resolves: (string, int) -> bool, r: Result<Target, Failure>)
    requires ip != "" && NoSpace(ip) && '/' !in ip && 0 < port && resolves(ip, port)
    requires d.connection == Some(ip) && |d.media| == 1
    requires d.media[0] == Media("audio", port, ["0", "101"], None, d.media[0].attributes)
    requires IsTarget(d, resolves, r)
    ensures r == Ok(Target(ip, port, 0))
  {
    ZeroOffered();
    hide NoSpace, Offered, IsTarget;
    FirstAudioDecides(d, 0, ip, resolves, r);
  }

  lemma CleanAddress(ip: string)
    requires ip != "" && NoSpace(ip) && '/' !in ip
    ensures SanitizeAddress(ip) == ip
  {
    assert ip[0] in ip && ip[|ip| - 1] in ip;
    TrimStays(ip);
  }

  lemma ZeroOffered()
    ensures Offered(["0", "101"], 0)
  {
    TrimStays("0");
    assert DigitsValue("0") == 0;
    assert Atoi("0") == Some(0);
    assert "0" in ["0", "101"];
  }
}
