/**
 * The decision logic of the ICE debugging helpers
 * (webrtc-room-client-ice-debug.ts): reading an ICE candidate line, as
 * section 5.1 of RFC 8839 lays it out (with the `tcptype` extension of
 * section 4.5 of RFC 6544), and choosing the candidate pair a stats snapshot
 * reports as selected. What the helpers print is left out.
 */
module IceDebug {
  import opened Common

  // ---------------------------------------------------------------------------
  // Tokens: `trim()` and `split(/\s+/)`

  /** The characters `\s` matches and `trim` removes, as far as ASCII goes. */
  predicate IsSpace(c: char) {
    c == ' ' || c == '\t' || c == '\n' || c == '\r' || c == '\U{000B}' || c == '\U{000C}'
  }

  /** A field of a split line: non-empty and free of whitespace. */
  predicate IsToken(w: string) {
    |w| > 0 && forall i :: 0 <= i < |w| ==> !IsSpace(w[i])
  }

  /** `s` without its leading whitespace. */
  function SkipSpaces(s: string): (r: string)
    ensures |r| <= |s| && r == s[|s| - |r|..]
    ensures r != [] ==> !IsSpace(r[0])
  {
    if s != [] && IsSpace(s[0]) then SkipSpaces(s[1..]) else s
  }

  /** The longest whitespace-free prefix of `s`. */
  function TokenPrefix(s: string): (r: string)
    ensures |r| <= |s| && r == s[..|r|]
    ensures forall i :: 0 <= i < |r| ==> !IsSpace(r[i])
    ensures |r| < |s| ==> IsSpace(s[|r|])
  {
    if s == [] || IsSpace(s[0]) then [] else [s[0]] + TokenPrefix(s[1..])
  }

  /** The maximal whitespace-free runs of `s`, in order. */
  function Words(s: string): (r: seq<string>)
    ensures forall i :: 0 <= i < |r| ==> IsToken(r[i])
    decreases |s|
  {
    var t := SkipSpaces(s);
    if t == [] then []
    else
      var w := TokenPrefix(t);
      [w] + Words(t[|w|..])
  }

  /**
   * `line.trim().split(/\s+/)`: the tokens of the line, except that a line
   * with no token splits into one empty field.
   */
  function Fields(line: string): (r: seq<string>)
    ensures |r| >= 1
  {
    var w := Words(line);
    if w == [] then [""] else w
  }

  lemma TokenPrefixOfToken(w: string, rest: string)
    requires IsToken(w)
    requires rest == [] || IsSpace(rest[0])
    ensures TokenPrefix(w + rest) == w
  {
    if |w| > 1 {
      assert (w + rest)[1..] == w[1..] + rest;
      TokenPrefixOfToken(w[1..], rest);
    } else {
      assert (w + rest)[1..] == rest;
    }
  }

  lemma {:induction false} WordsLeadingSpace(s: string)
    ensures Words(" " + s) == Words(s)
  {
    assert (" " + s)[1..] == s;
  }

  /** A token followed by whitespace or nothing is the first word. */
  lemma WordsOfToken(w: string, rest: string)
    requires IsToken(w)
    requires rest == [] || IsSpace(rest[0])
    ensures Words(w + rest) == [w] + Words(rest)
  {
    var s := w + rest;
    assert s[0] == w[0];
    assert SkipSpaces(s) == s;
    TokenPrefixOfToken(w, rest);
    assert s[|w|..] == rest;
  }

  /** Splitting tokens joined by spaces gives the tokens back. */
  lemma {:induction false} WordsJoin(ws: seq<string>)
    requires forall i :: 0 <= i < |ws| ==> IsToken(ws[i])
    ensures Words(Join(ws)) == ws
  {
    if ws == [] {
    } else if |ws| == 1 {
      calc {
        Words(Join(ws));
        { assert Join(ws) == ws[0] + []; }
        Words(ws[0] + []);
        { WordsOfToken(ws[0], []); }
        [ws[0]] + Words([]);
        ws;
      }
    } else {
      var rest := Join(ws[1..]);
      calc {
        Words(Join(ws));
        { assert Join(ws) == ws[0] + (" " + rest); }
        Words(ws[0] + (" " + rest));
        { WordsOfToken(ws[0], " " + rest); }
        [ws[0]] + Words(" " + rest);
        { WordsLeadingSpace(rest); }
        [ws[0]] + Words(rest);
        { WordsJoin(ws[1..]); }
        [ws[0]] + ws[1..];
        ws;
      }
    }
  }

  // ---------------------------------------------------------------------------
  // Numbers: `Number(field)`

  /**
   * `Number(token)` for the numeric forms a candidate line uses: an optional
   * sign followed by decimal digits. None stands for NaN.
   */
  function ParseNumber(s: string): (r: Option<int>)
    ensures r.Some? ==> |s| > 0
    ensures AllDigits(s) && |s| > 0 ==> r == Some(DigitsValue(s))
  {
    if |s| > 1 && (s[0] == '+' || s[0] == '-') && AllDigits(s[1..]) then
      var magnitude: int := DigitsValue(s[1..]);
      Some(if s[0] == '-' then -magnitude else magnitude)
    else if |s| > 0 && AllDigits(s) then Some(DigitsValue(s))
    else None
  }

  /** Reading back a written number gives the number. */
  lemma {:induction false} DigitsValueOfNat(n: nat)
    ensures DigitsValue(NatToString(n)) == n
  {
    if n >= 10 {
      var s := NatToString(n);
      assert s[..|s| - 1] == NatToString(n / 10);
      DigitsValueOfNat(n / 10);
    }
  }

  lemma ParseNumberOfNat(n: nat)
    ensures ParseNumber(NatToString(n)) == Some(n)
  {
    DigitsValueOfNat(n);
  }

  // ---------------------------------------------------------------------------
  // parseIceCandidate

  /** Position of the first field equal to `key`. */
  function FirstIndex(parts: seq<string>, key: string): (r: Option<nat>)
    ensures r.None? <==> key !in parts
    ensures r.Some? ==> r.value < |parts| && parts[r.value] == key && key !in parts[..r.value]
  {
    if parts == [] then None
    else if parts[0] == key then Some(0)
    else
      var tail := FirstIndex(parts[1..], key);
      if tail.None? then None
      else
        assert parts[..tail.value + 1] == [parts[0]] + parts[1..][..tail.value];
        Some(tail.value + 1)
  }

  /** `getValue(key)`: the field after the first `key`, unless `key` is absent or last. */
  function GetValue(parts: seq<string>, key: string): (r: Option<string>)
    ensures r.None? <==> key !in parts || FirstIndex(parts, key).value == |parts| - 1
    ensures r.Some? ==> exists i :: 0 <= i < |parts| - 1 && parts[i] == key && key !in parts[..i] && r.value == parts[i + 1]
  {
    match FirstIndex(parts, key)
    case None => None
    case Some(i) => if i + 1 < |parts| then Some(parts[i + 1]) else None
  }

  /** What parseIceCandidate returns for a non-empty line. */
  datatype ParsedCandidate =
    | Unparsed(raw: string)
    | CandidateFields(
        foundation: string, component: string, protocol: string, priority: string, address: string,
        port: Option<int>, candidateType: Option<string>, tcpType: Option<string>,
        relatedAddress: Option<string>, relatedPort: Option<Option<int>>)

  /** The length of the "candidate:" prefix. */
  const PrefixLength: nat := 10

  /** The line with a leading "candidate:" removed. */
  function StripCandidatePrefix(line: string): (r: string)
    ensures |line| >= PrefixLength && line[..PrefixLength] == "candidate:" ==> r == line[PrefixLength..]
    ensures !(|line| >= PrefixLength && line[..PrefixLength] == "candidate:") ==> r == line
  {
    if |line| >= PrefixLength && line[..PrefixLength] == "candidate:" then line[PrefixLength..] else line
  }

  /**
   * parseIceCandidate. An absent or empty line gives None; a line of fewer
   * than eight fields is kept whole, "candidate:" prefix included; otherwise
   * the fields are read by position and the attributes by name.
   */
  function ParseIceCandidate(line: Option<string>): (r: Option<ParsedCandidate>)
    ensures r.None? <==> line.None? || line.value == ""
    ensures r.Some? ==> (r.value.Unparsed? <==> |Fields(StripCandidatePrefix(line.value))| < 8)
    ensures r.Some? && r.value.Unparsed? ==> r.value.raw == line.value
  {
    if line.None? || line.value == "" then None
    else
      var parts := Fields(StripCandidatePrefix(line.value));
      if |parts| < 8 then Some(Unparsed(line.value))
      else
        var relatedPort := GetValue(parts, "rport");
        Some(CandidateFields(
          parts[0], parts[1], Lower(parts[2]), parts[3], parts[4], ParseNumber(parts[5]),
          GetValue(parts, "typ"), GetValue(parts, "tcptype"), GetValue(parts, "raddr"),
          if relatedPort.Some? then Some(ParseNumber(relatedPort.value)) else None))
  }

  /** The attributes a candidate line names. */
  predicate IsKey(w: string) {
    w == "typ" || w == "raddr" || w == "rport" || w == "tcptype"
  }

  /**
   * A candidate attribute as section 5.1 of RFC 8839 defines it, with the
   * optional related address and port and the optional `tcptype` extension.
   */
  datatype CandidateAttribute = CandidateAttribute(
    foundation: string, component: nat, transport: string, priority: nat, address: string, port: nat,
    candType: string, related: Option<(string, nat)>, tcpType: Option<string>)

  /** Every written field is a token, and none of the free-text ones is an attribute name. */
  predicate WellFormed(a: CandidateAttribute) {
    && IsToken(a.foundation) && !IsKey(a.foundation)
    && IsToken(a.transport) && !IsKey(a.transport)
    && IsToken(a.address) && !IsKey(a.address)
    && IsToken(a.candType) && !IsKey(a.candType)
    && (a.related.Some? ==> IsToken(a.related.value.0) && !IsKey(a.related.value.0))
    && (a.tcpType.Some? ==> IsToken(a.tcpType.value) && !IsKey(a.tcpType.value))
  }

  /** The fields of the attribute, in the order the grammar writes them. */
  function AttributeFields(a: CandidateAttribute): seq<string> {
    [a.foundation, NatToString(a.component), a.transport, NatToString(a.priority), a.address,
     NatToString(a.port), "typ", a.candType]
    + (if a.related.Some? then ["raddr", a.related.value.0, "rport", NatToString(a.related.value.1)] else [])
    + (if a.tcpType.Some? then ["tcptype", a.tcpType.value] else [])
  }

  /** The attribute written as a candidate line. */
  function FormatCandidate(a: CandidateAttribute): string {
    "candidate:" + Join(AttributeFields(a))
  }

  lemma NumberIsNotKey(n: nat)
    ensures !IsKey(NatToString(n))
  {
    var s := NatToString(n);
    assert IsDigit(s[0]);
  }

  lemma FirstIndexAt(parts: seq<string>, key: string, i: nat)
    requires i < |parts| && parts[i] == key
    requires forall j :: 0 <= j < i ==> parts[j] != key
    ensures FirstIndex(parts, key) == Some(i)
  {
    var r := FirstIndex(parts, key);
    assert r.value <= i by {
      assert parts[..r.value] == parts[..r.value];
    }
  }

  /** The fields of a well-formed attribute are tokens, and the first six are no attribute name. */
  lemma AttributeFieldsTokens(a: CandidateAttribute)
    requires WellFormed(a)
    ensures forall i :: 0 <= i < |AttributeFields(a)| ==> IsToken(AttributeFields(a)[i])
    ensures forall i :: 0 <= i < 6 ==> !IsKey(AttributeFields(a)[i])
  {
    NumberIsNotKey(a.component);
    NumberIsNotKey(a.priority);
    NumberIsNotKey(a.port);
    var base := [a.foundation, NatToString(a.component), a.transport, NatToString(a.priority), a.address,
                 NatToString(a.port), "typ", a.candType];
    var related := if a.related.Some? then ["raddr", a.related.value.0, "rport", NatToString(a.related.value.1)] else [];
    var tcp := if a.tcpType.Some? then ["tcptype", a.tcpType.value] else [];
    assert AttributeFields(a) == base + related + tcp;
    assert forall i :: 0 <= i < |base| ==> IsToken(base[i]);
    assert forall i :: 0 <= i < |related| ==> IsToken(related[i]);
    assert forall i :: 0 <= i < |tcp| ==> IsToken(tcp[i]);
  }

  /** The formatted line splits back into the attribute's fields. */
  lemma FieldsOfFormatted(a: CandidateAttribute)
    requires WellFormed(a)
    ensures Fields(StripCandidatePrefix(FormatCandidate(a))) == AttributeFields(a)
  {
    var fields := AttributeFields(a);
    assert StripCandidatePrefix(FormatCandidate(a)) == Join(fields) by {
      var line := FormatCandidate(a);
      assert line[..PrefixLength] == "candidate:";
      assert line[PrefixLength..] == Join(fields);
    }
    assert Words(Join(fields)) == fields by {
      AttributeFieldsTokens(a);
      WordsJoin(fields);
    }
  }

  /** Where a well-formed attribute's fields put the attribute names, and nowhere else. */
  lemma KeyPositions(a: CandidateAttribute)
    requires WellFormed(a)
    ensures var f := AttributeFields(a);
      var n := if a.related.Some? then 12 else 8;
      && |f| == n + (if a.tcpType.Some? then 2 else 0)
      && f[5] == NatToString(a.port) && f[6] == "typ" && f[7] == a.candType
      && (a.related.Some? ==>
            f[8] == "raddr" && f[9] == a.related.value.0 && f[10] == "rport" && f[11] == NatToString(a.related.value.1))
      && (a.tcpType.Some? ==> f[n] == "tcptype" && f[n + 1] == a.tcpType.value)
      && forall j :: 0 <= j < |f| && IsKey(f[j]) ==>
           j == 6 || (a.related.Some? && (j == 8 || j == 10)) || (a.tcpType.Some? && j == n)
  {
    var f := AttributeFields(a);
    var n := if a.related.Some? then 12 else 8;
    AttributeFieldsTokens(a);
    forall j | 0 <= j < |f| && IsKey(f[j])
      ensures j == 6 || (a.related.Some? && (j == 8 || j == 10)) || (a.tcpType.Some? && j == n)
    {
      if a.related.Some? && j == 11 {
        NumberIsNotKey(a.related.value.1);
      }
    }
  }

  /** `typ` is found at its fixed place, right before the candidate type. */
  lemma TypValue(a: CandidateAttribute)
    requires WellFormed(a)
    ensures GetValue(AttributeFields(a), "typ") == Some(a.candType)
  {
    KeyPositions(a);
    FirstIndexAt(AttributeFields(a), "typ", 6);
  }

  /** `raddr` gives the related address exactly when the attribute has one. */
  lemma RelatedAddressValue(a: CandidateAttribute)
    requires WellFormed(a)
    ensures GetValue(AttributeFields(a), "raddr") == if a.related.Some? then Some(a.related.value.0) else None
  {
    var f := AttributeFields(a);
    KeyPositions(a);
    if a.related.Some? {
      FirstIndexAt(f, "raddr", 8);
    } else {
      assert "raddr" !in f by {
        forall j | 0 <= j < |f| ensures f[j] != "raddr" {
        }
      }
    }
  }

  /** `rport` gives the related port exactly when the attribute has one. */
  lemma RelatedPortValue(a: CandidateAttribute)
    requires WellFormed(a)
    ensures GetValue(AttributeFields(a), "rport") ==
      if a.related.Some? then Some(NatToString(a.related.value.1)) else None
  {
    var f := AttributeFields(a);
    KeyPositions(a);
    if a.related.Some? {
      FirstIndexAt(f, "rport", 10);
    } else {
      assert "rport" !in f by {
        forall j | 0 <= j < |f| ensures f[j] != "rport" {
        }
      }
    }
  }

  /** `tcptype` gives the TCP type exactly when the attribute has one. */
  lemma TcpTypeValue(a: CandidateAttribute)
    requires WellFormed(a)
    ensures GetValue(AttributeFields(a), "tcptype") == a.tcpType
  {
    var f := AttributeFields(a);
    var n := if a.related.Some? then 12 else 8;
    KeyPositions(a);
    if a.tcpType.Some? {
      FirstIndexAt(f, "tcptype", n);
    } else {
      assert "tcptype" !in f by {
        forall j | 0 <= j < |f| ensures f[j] != "tcptype" {
        }
      }
    }
  }

  /** A line of at least eight fields is read positionally, with the named attributes looked up. */
  lemma ParseOfFields(line: string, parts: seq<string>)
    requires line != "" && Fields(StripCandidatePrefix(line)) == parts && |parts| >= 8
    ensures ParseIceCandidate(Some(line)) == Some(CandidateFields(
      parts[0], parts[1], Lower(parts[2]), parts[3], parts[4], ParseNumber(parts[5]),
      GetValue(parts, "typ"), GetValue(parts, "tcptype"), GetValue(parts, "raddr"),
      if GetValue(parts, "rport").Some? then Some(ParseNumber(GetValue(parts, "rport").value)) else None))
  {
  }

  /**
   * Parsing a well-formed candidate line gives back every field of the
   * attribute: the positional ones as written (the transport lower-cased),
   * the numbers as numbers, and the named attributes when present.
   */
  lemma ParseFormattedCandidate(a: CandidateAttribute)
    requires WellFormed(a)
    ensures ParseIceCandidate(Some(FormatCandidate(a))) == Some(CandidateFields(
      a.foundation, NatToString(a.component), Lower(a.transport), NatToString(a.priority), a.address,
      Some(a.port), Some(a.candType), a.tcpType,
      if a.related.Some? then Some(a.related.value.0) else None,
      if a.related.Some? then Some(Some(a.related.value.1)) else None))
  {
    var f := AttributeFields(a);
    var line := FormatCandidate(a);
    assert line != "" by {
      assert line[0] == 'c';
    }
    assert Fields(StripCandidatePrefix(line)) == f by {
      FieldsOfFormatted(a);
    }
    assert |f| >= 8 && f[5] == NatToString(a.port) by {
      KeyPositions(a);
    }
    ParseOfFields(line, f);
    ParseNumberOfNat(a.port);
    TypValue(a);
    RelatedAddressValue(a);
    RelatedPortValue(a);
    if a.related.Some? {
      ParseNumberOfNat(a.related.value.1);
    }
    TcpTypeValue(a);
  }

  /** A line too short to hold a candidate is reported whole, prefix included. */
  lemma ShortLineKeptRaw(line: string)
    requires line != ""
    requires |Words(StripCandidatePrefix(line))| < 8
    ensures ParseIceCandidate(Some(line)) == Some(Unparsed(line))
  {
  }

  // ---------------------------------------------------------------------------
  // The selected-pair rule of logIceSelectedPairSnapshot

  datatype StatsType = Transport | CandidatePair | LocalCandidate | RemoteCandidate | OtherStats(name: string)

  /** The fields of a stats report the rule reads; absent booleans read as false. */
  datatype StatsReport = StatsReport(
    id: string, statsType: StatsType, selectedCandidatePairId: Option<string>,
    nominated: bool, selected: bool, state: string)

  /** `stats.get(id)`: the report with that id. */
  function Lookup(stats: seq<StatsReport>, id: string): (r: Option<StatsReport>)
    ensures r.None? <==> forall i :: 0 <= i < |stats| ==> stats[i].id != id
    ensures r.Some? ==> r.value in stats && r.value.id == id
  {
    if stats == [] then None
    else if stats[0].id == id then Some(stats[0])
    else Lookup(stats[1..], id)
  }

  /** The candidate pair a transport report names as selected, if it names one that is a pair. */
  function ReferencedPair(stats: seq<StatsReport>, report: StatsReport): (r: Option<StatsReport>)
    ensures r.Some? ==> report.statsType == Transport && r.value in stats && r.value.statsType == CandidatePair
    ensures r.Some? ==> report.selectedCandidatePairId == Some(r.value.id) && r.value.id != ""
  {
    if report.statsType == Transport && report.selectedCandidatePairId.Some? && report.selectedCandidatePairId.value != "" then
      var found := Lookup(stats, report.selectedCandidatePairId.value);
      if found.Some? && found.value.statsType == CandidatePair then found else None
    else None
  }

  /** A candidate pair in use: nominated, selected, or succeeded. */
  predicate Active(report: StatsReport) {
    report.statsType == CandidatePair && (report.nominated || report.selected || report.state == "succeeded")
  }

  /** The first transport report that names a candidate pair. */
  function FirstReferencing(stats: seq<StatsReport>, reports: seq<StatsReport>): (r: Option<nat>)
    ensures r.None? <==> forall i :: 0 <= i < |reports| ==> ReferencedPair(stats, reports[i]).None?
    ensures r.Some? ==> r.value < |reports| && ReferencedPair(stats, reports[r.value]).Some?
    ensures r.Some? ==> forall j :: 0 <= j < r.value ==> ReferencedPair(stats, reports[j]).None?
  {
    if reports == [] then None
    else if ReferencedPair(stats, reports[0]).Some? then Some(0)
    else
      var tail := FirstReferencing(stats, reports[1..]);
      if tail.None? then None else Some(tail.value + 1)
  }

  /** The first active candidate pair. */
  function FirstActive(reports: seq<StatsReport>): (r: Option<nat>)
    ensures r.None? <==> forall i :: 0 <= i < |reports| ==> !Active(reports[i])
    ensures r.Some? ==> r.value < |reports| && Active(reports[r.value])
    ensures r.Some? ==> forall j :: 0 <= j < r.value ==> !Active(reports[j])
  {
    if reports == [] then None
    else if Active(reports[0]) then Some(0)
    else
      var tail := FirstActive(reports[1..]);
      if tail.None? then None else Some(tail.value + 1)
  }

  /**
   * The selected pair: the pair the first transport names, otherwise the
   * first active pair, otherwise none. Whatever it is, it is a candidate pair
   * of the snapshot.
   */
  function SelectedPair(stats: seq<StatsReport>): (r: Option<StatsReport>)
    ensures r.Some? ==> r.value in stats && r.value.statsType == CandidatePair
    ensures r.None? <==>
      (forall i :: 0 <= i < |stats| ==> ReferencedPair(stats, stats[i]).None?) && (forall i :: 0 <= i < |stats| ==> !Active(stats[i]))
    ensures FirstReferencing(stats, stats).None? && r.Some? ==> Active(r.value)
  {
    match FirstReferencing(stats, stats)
    case Some(i) => ReferencedPair(stats, stats[i])
    case None =>
      match FirstActive(stats)
      case Some(i) => Some(stats[i])
      case None => None
  }

  /**
   * The two passes of logIceSelectedPairSnapshot over the snapshot, in its
   * order: first the transports, then, if they name no pair, the pairs.
   */
  method SelectIcePair(stats: seq<StatsReport>) returns (selectedPair: Option<StatsReport>)
    ensures selectedPair == SelectedPair(stats)
  {
    selectedPair := None;
    ghost var found: nat := 0;
    var i := 0;
    while i < |stats|
      invariant 0 <= i <= |stats|
      invariant selectedPair.None? ==> forall j :: 0 <= j < i ==> ReferencedPair(stats, stats[j]).None?
      invariant selectedPair.Some? ==>
        && found < i && selectedPair == ReferencedPair(stats, stats[found])
        && forall j :: 0 <= j < found ==> ReferencedPair(stats, stats[j]).None?
    {
      var report := stats[i];
      if selectedPair.None? && report.statsType == Transport
         && report.selectedCandidatePairId.Some? && report.selectedCandidatePairId.value != "" {
        var candidatePairReport := Lookup(stats, report.selectedCandidatePairId.value);
        if candidatePairReport.Some? && candidatePairReport.value.statsType == CandidatePair {
          selectedPair := candidatePairReport;
          found := i;
        }
      }
      i := i + 1;
    }
    if selectedPair.Some? {
      assert FirstReferencing(stats, stats) == Some(found);
      return;
    }
    i := 0;
    while i < |stats|
      invariant 0 <= i <= |stats|
      invariant selectedPair.None? ==> forall j :: 0 <= j < i ==> !Active(stats[j])
      invariant selectedPair.Some? ==>
        && found < i && selectedPair == Some(stats[found]) && Active(stats[found])
        && forall j :: 0 <= j < found ==> !Active(stats[j])
    {
      var report := stats[i];
      if selectedPair.None? && report.statsType == CandidatePair
         && (report.nominated || report.selected || report.state == "succeeded") {
        selectedPair := Some(report);
        found := i;
      }
      i := i + 1;
    }
    if selectedPair.Some? {
      assert FirstActive(stats) == Some(found);
    }
  }
}
