/** The line filter that a WireGuard configuration passes before it is applied. */
module WireGuard {
  import opened Wrappers

  // ----- text

  predicate IsSpace(c: char) {
    || '\t' <= c <= '\r' || c == ' ' || c == '\U{0085}' || c == '\U{00A0}' || c == '\U{1680}'
    || '\U{2000}' <= c <= '\U{200A}' || c == '\U{2028}' || c == '\U{2029}' || c == '\U{202F}' || c == '\U{205F}' ||
        c == '\U{3000}'
  }

  /** What is cut from both ends of a text. */
  datatype Cut = Spaces | Brackets

  predicate Drops(cut: Cut, c: char) {
    match cut
    case Spaces => IsSpace(c)
    case Brackets => c == '[' || c == ']'
  }

  function StripLeft(s: string, cut: Cut): (r: string)
    ensures r == "" || !Drops(cut, r[0])
    ensures forall c :: c in r ==> c in s
  {
    if s != "" && Drops(cut, s[0]) then StripLeft(s[1..], cut) else s
  }

  function StripRight(s: string, cut: Cut): (r: string)
    ensures r <= s && (r == "" || !Drops(cut, r[|r| - 1]))
  {
    if s != "" && Drops(cut, s[|s| - 1]) then StripRight(s[..|s| - 1], cut) else s
  }

  function Strip(s: string, cut: Cut): string {
    StripRight(StripLeft(s, cut), cut)
  }

  predicate Trimmed(s: string) {
    s == "" || (!IsSpace(s[0]) && !IsSpace(s[|s| - 1]))
  }

  function Trim(s: string): (r: string)
    ensures Trimmed(r) && (Trimmed(s) ==> r == s)
    ensures '\n' !in s ==> '\n' !in r
  {
    Strip(s, Spaces)
  }

  /** Lower case as far as comparing with ASCII text can tell: the Kelvin sign and the dotted capital I are the only
      other characters whose lower case is ASCII. */
  function LowerChar(c: char): char {
    if 'A' <= c <= 'Z' then c - 'A' + 'a' else if c == '\U{212A}' then 'k' else if c == '\U{0130}' then 'i' else c
  }

  function Lower(s: string): string {
    seq(|s|, i requires 0 <= i < |s| => LowerChar(s[i]))
  }

  function Split(s: string): (lines: seq<string>)
    ensures lines != []
    ensures forall k :: 0 <= k < |lines| ==> '\n' !in lines[k]
  {
    if s == "" then [""]
    else
      var rest := Split(s[1..]);
      if s[0] == '\n' then [""] + rest else [[s[0]] + rest[0]] + rest[1..]
  }

  function Join(lines: seq<string>): string {
    if lines == [] then "" else if |lines| == 1 then lines[0] else lines[0] + "\n" + Join(lines[1..])
  }

  // ----- one line

  datatype Kind = Nothing | Header(name: string) | Entry(left: string, right: string)

  function FirstEquals(line: string, i: nat): (at: Option<nat>)
    requires i <= |line|
    ensures at.Some? ==> i <= at.value < |line| && line[at.value] == '=' && forall k :: i <= k < at.value ==>
            line[k] != '='
    ensures at.None? ==> forall k :: i <= k < |line| ==> line[k] != '='
    decreases |line| - i
  {
    if i == |line| then None else if line[i] == '=' then Some(i) else FirstEquals(line, i + 1)
  }

  function Classify(raw: string): Kind {
    var line := Trim(raw);
    if line == "" || line[0] == '#' || line[0] == ';' then Nothing
    else if line[0] == '[' && line[|line| - 1] == ']' then Header(Lower(Trim(Strip(line, Brackets))))
    else
      var at := FirstEquals(line, 0);
      if at.None? then Nothing else Entry(Trim(line[..at.value]), Trim(line[at.value + 1..]))
  }

  predicate Allowed(section: string, key: string) {
    || (section == "interface" && (key == "privatekey" || key == "listenport" || key == "fwmark"))
    || (section == "peer" && (key == "publickey" || key == "presharedkey" || key == "allowedips" || key == "endpoint" ||
                              key == "persistentkeepalive"))
  }

  datatype Emission = Dropped | Kept(line: string) | Unresolved

  /** What one line turns into under a section; `resolve` normalises an endpoint or fails. */
  function Emit(section: string, raw: string, resolve: string -> Option<string>): Emission {
    match Classify(raw)
    case Nothing => Dropped
    case Header(name) =>
      if name == "interface" then Kept("[Interface]") else if name == "peer" then Kept("[Peer]") else Dropped
    case Entry(left, right) =>
      if !Allowed(section, Lower(left)) then Dropped
      else if section == "peer" && Lower(left) == "endpoint" then
        var r := resolve(right);
        if r.None? then Unresolved else Kept(left + " = " + r.value)
      else Kept(Trim(raw))
  }

  // ----- the whole configuration

  function HeaderOf(raw: string): Option<string> {
    match Classify(raw)
    case Header(name) => Some(name)
    case _ => None
  }

  function Headers(lines: seq<string>): seq<Option<string>> {
    seq(|lines|, i requires 0 <= i < |lines| => HeaderOf(lines[i]))
  }

  /** The section at place i: that of the nearest header above. */
  function SectionAt(headers: seq<Option<string>>, i: nat): string
    requires i <= |headers|
  {
    if i == 0 then "" else if headers[i - 1].Some? then headers[i - 1].value else SectionAt(headers, i - 1)
  }

  function SectionBefore(lines: seq<string>, i: nat): string
    requires i <= |lines|
  {
    SectionAt(Headers(lines), i)
  }

  function Emissions(lines: seq<string>, resolve: string -> Option<string>): seq<Emission> {
    seq(|lines|, i requires 0 <= i < |lines| => Emit(SectionBefore(lines, i), lines[i], resolve))
  }

  /** What the first n lines give together: nothing if one of them does not resolve. */
  function Collect(es: seq<Emission>, n: nat): Option<seq<string>>
    requires n <= |es|
  {
    if n == 0 then Some([])
    else
      var out := Collect(es, n - 1);
      if out.None? then None
      else match es[n - 1]
        case Dropped => out
        case Kept(line) => Some(out.value + [line])
        case Unresolved => None
  }

  function Filter(lines: seq<string>, resolve: string -> Option<string>): Option<seq<string>> {
    Collect(Emissions(lines, resolve), |lines|)
  }

  function Sanitized(config: string, resolve: string -> Option<string>): Option<string> {
    var out := Filter(Split(config), resolve);
    if out.None? then None else Some(Join(out.value) + "\n")
  }

  /** One turn of the loop: the section from here on, and what the line turns into. */
  method SanitizeLine(
    section: string, raw: string, resolve: string -> Option<string>) returns (next: string, e: Emission)
    ensures e == Emit(section, raw, resolve)
    ensures next == if HeaderOf(raw).Some? then HeaderOf(raw).value else section
  {
    next := section;
    var line := Trim(raw);
    if line == "" || line[0] == '#' || line[0] == ';' {
      return section, Dropped;
    }
    if line[0] == '[' && line[|line| - 1] == ']' {
      next := Lower(Trim(Strip(line, Brackets)));
      e := if next == "interface" then Kept("[Interface]") else if next == "peer" then Kept("[Peer]") else Dropped;
      return;
    }
    var at := FirstEquals(line, 0);
    if at.None? {
      return section, Dropped;
    }
    var left, right := Trim(line[..at.value]), Trim(line[at.value + 1..]);
    var key := Lower(left);
    if !Allowed(section, key) {
      return section, Dropped;
    }
    if section == "peer" && key == "endpoint" {
      var normalized := resolve(right);
      if normalized.None? {
        return section, Unresolved;
      }
      line := left + " = " + normalized.value;
    }
    e := Kept(line);
  }

  method FilterLines(lines: seq<string>, resolve: string -> Option<string>) returns (result: Option<seq<string>>)
    ensures result == Filter(lines, resolve)
  {
    var section, out := "", [];
    for i := 0 to |lines|
      invariant section == SectionAt(Headers(lines), i)
      invariant Collect(Emissions(lines, resolve), i) == Some(out)
    {
      var next, e := SanitizeLine(section, lines[i], resolve);
      OneLine(Emissions(lines, resolve), Headers(lines), i, e, next);
      section := next;
      if e.Unresolved? {
        return None;
      }
      if e.Kept? {
        out := out + [e.line];
      }
    }
    result := Some(out);
  }

  method SanitizeWireGuardConfig(config: string, resolve: string -> Option<string>) returns (result: Option<string>)
    ensures result == Sanitized(config, resolve)
  {
    var out := FilterLines(Split(config), resolve);
    result := if out.None? then None else Some(Join(out.value) + "\n");
  }

  lemma OneLine(es: seq<Emission>, headers: seq<Option<string>>, i: nat, e: Emission, next: string)
    requires i < |es| == |headers| && Collect(es, i).Some? && e == es[i]
    requires next == if headers[i].Some? then headers[i].value else SectionAt(headers, i)
    ensures SectionAt(headers, i + 1) == next
    ensures if e.Unresolved? then Collect(es, i + 1).None? && Collect(es, |es|).None?
            else Collect(es, i + 1) == if e.Kept? then Some(Collect(es, i).value + [e.line]) else Collect(es, i)
  {
    FailureLasts(es, i + 1, |es|);
  }

  lemma {:induction false} FailureLasts(es: seq<Emission>, n: nat, m: nat)
    requires n <= m <= |es|
    ensures Collect(es, n).None? ==> Collect(es, m).None?
  {
    if n < m {
      FailureLasts(es, n, m - 1);
    }
  }

  /** The line is a peer's endpoint that does not resolve. */
  predicate BadEndpoint(section: string, raw: string, resolve: string -> Option<string>) {
    && section == "peer" && Classify(raw).Entry? && Lower(Classify(raw).left) == "endpoint"
    && resolve(Classify(raw).right).None?
  }

  lemma UnresolvedExactly(section: string, raw: string, resolve: string -> Option<string>)
    ensures Emit(section, raw, resolve).Unresolved? <==> BadEndpoint(section, raw, resolve)
  {
  }

  lemma {:induction false} CollectFails(es: seq<Emission>, n: nat)
    requires n <= |es|
    ensures Collect(es, n).None? <==> exists i :: 0 <= i < n && es[i].Unresolved?
  {
    if n > 0 {
      CollectFails(es, n - 1);
    }
  }

  /** It fails exactly when some endpoint of a peer does not resolve. */
  lemma FailsExactly(lines: seq<string>, resolve: string -> Option<string>)
    ensures Filter(lines, resolve).None? <==>
            exists i :: 0 <= i < |lines| && BadEndpoint(SectionBefore(lines, i), lines[i], resolve)
  {
    var es := Emissions(lines, resolve);
    CollectFails(es, |lines|);
    forall i | 0 <= i < |lines| ensures es[i].Unresolved? <==> BadEndpoint(SectionBefore(lines, i), lines[i], resolve) {
      UnresolvedExactly(SectionBefore(lines, i), lines[i], resolve);
    }
  }

  // ----- clean configurations

  predicate IsHeader(line: string) {
    line == "[Interface]" || line == "[Peer]"
  }

  /** An entry as the filter writes it: trimmed, allowed under its section, an endpoint already normalised. */
  predicate CleanEntry(section: string, line: string, resolve: string -> Option<string>) {
    && Trimmed(line) && Classify(line).Entry? && Allowed(section, Lower(Classify(line).left))
    && (section == "peer" && Lower(Classify(line).left) == "endpoint" ==>
          resolve(Classify(line).right) == Some(Classify(line).right) &&
          line == Classify(line).left + " = " + Classify(line).right)
  }

  /** Every line is one of the two headers or a clean entry of the nearest header above it. */
  ghost predicate Clean(lines: seq<string>, resolve: string -> Option<string>) {
    forall i :: 0 <= i < |lines| ==>
      '\n' !in lines[i] && (IsHeader(lines[i]) || CleanEntry(SectionBefore(lines, i), lines[i], resolve))
  }

  /** What the endpoint normaliser promises for an endpoint on one line: a result that is trimmed, on one line, not
      empty, and its own normal form. */
  ghost predicate Normalises(resolve: string -> Option<string>) {
    forall e :: '\n' !in e && resolve(e).Some? ==>
      var r := resolve(e).value; r != "" && Trimmed(r) && '\n' !in r && resolve(r) == Some(r)
  }

  lemma BracketsComeOff(name: string)
    requires name != "" && name[0] != '[' && name[0] != ']' && name[|name| - 1] != '[' && name[|name| - 1] != ']'
    ensures Strip("[" + name + "]", Brackets) == name
  {
    var line := "[" + name + "]";
    assert line[0] == '[' && line[1..] == name + "]" && (name + "]")[0] == name[0];
    assert StripLeft(line, Brackets) == StripLeft(name + "]", Brackets) == name + "]";
    assert (name + "]")[|name|] == ']' && (name + "]")[..|name|] == name;
    assert StripRight(name + "]", Brackets) == StripRight(name, Brackets) == name;
  }

  lemma HeaderClassifies(name: string)
    requires name != "" && name[0] != '[' && name[0] != ']' && name[|name| - 1] != '[' && name[|name| - 1] != ']'
    requires Trimmed(name)
    ensures Classify("[" + name + "]") == Header(Lower(name))
  {
    BracketsComeOff(name);
    assert Trimmed("[" + name + "]");
  }

  lemma InterfaceClassifies()
    ensures Classify("[Interface]") == Header("interface")
  {
    HeaderClassifies("Interface");
    assert "[" + "Interface" + "]" == "[Interface]" && Lower("Interface") == "interface";
  }

  lemma PeerClassifies()
    ensures Classify("[Peer]") == Header("peer")
  {
    HeaderClassifies("Peer");
    assert "[" + "Peer" + "]" == "[Peer]" && Lower("Peer") == "peer";
  }

  lemma {:induction false} SectionSame(h: seq<Option<string>>, g: seq<Option<string>>, i: nat)
    requires i <= |h| && i <= |g| && forall k :: 0 <= k < i ==> h[k] == g[k]
    ensures SectionAt(h, i) == SectionAt(g, i)
  {
    if i > 0 {
      SectionSame(h, g, i - 1);
    }
  }

  /** Cleaning up an endpoint entry gives a line that reads back as the same entry. */
  lemma EndpointReadsBack(left: string, r: string)
    requires Lower(left) == "endpoint" && Trimmed(left) && '=' !in left && r != "" && Trimmed(r)
    ensures var line := left + " = " + r; Trimmed(line) && Classify(line) == Entry(left, r)
  {
    var line := left + " = " + r;
    assert |Lower(left)| == |left| == 8 && LowerChar(left[0]) == Lower(left)[0] == 'e';
    assert line[0] == left[0] && line[|line| - 1] == r[|r| - 1];
    var at := FirstEquals(line, 0);
    assert line[9] == '=';
    assert forall k :: 0 <= k < 9 ==> line[k] != '=' by {
      forall k | 0 <= k < 8 ensures line[k] != '=' {
        assert line[k] == left[k];
      }
    }
    assert at == Some(9);
    assert line[..9] == left + " " && line[10..] == " " + r;
    TrimsBack(left, r);
  }

  lemma TrimsBack(left: string, r: string)
    requires left != "" && Trimmed(left) && r != "" && Trimmed(r)
    ensures Trim(left + " ") == left && Trim(" " + r) == r
  {
    var padded, indented := left + " ", " " + r;
    assert padded[0] == left[0] && padded[|padded| - 1] == ' ' && padded[..|padded| - 1] == left;
    assert StripRight(padded, Spaces) == StripRight(left, Spaces) == left;
    assert indented[0] == ' ' && indented[1..] == r;
    assert StripLeft(indented, Spaces) == StripLeft(r, Spaces) == r;
  }

  lemma TrimmingKeepsKind(raw: string)
    ensures Classify(Trim(raw)) == Classify(raw)
  {
  }

  /** A kept header is one of the two and still starts its section. */
  lemma KeptHeader(section: string, raw: string, resolve: string -> Option<string>)
    requires Classify(raw).Header? && Emit(section, raw, resolve).Kept?
    ensures var line := Emit(section, raw, resolve).line; IsHeader(line) && Classify(line) == Classify(raw)
  {
    InterfaceClassifies();
    PeerClassifies();
  }

  /** Any other kept line is a clean entry of the section it was read in. */
  lemma KeptEntry(section: string, raw: string, resolve: string -> Option<string>)
    requires Normalises(resolve) && '\n' !in raw && Classify(raw).Entry? && Emit(section, raw, resolve).Kept?
    ensures var line := Emit(section, raw, resolve).line; '\n' !in line && CleanEntry(section, line, resolve)
  {
    var left, right := Classify(raw).left, Classify(raw).right;
    var at := FirstEquals(Trim(raw), 0);
    if section == "peer" && Lower(left) == "endpoint" {
      EndpointReadsBack(left, resolve(right).value);
    } else {
      TrimmingKeepsKind(raw);
    }
  }

  // ----- white space around a line

  predicate AllSpace(s: string) {
    forall c :: c in s ==> IsSpace(c)
  }

  lemma {:induction false} LeadingSpaceGoes(pad: string, s: string)
    requires AllSpace(pad)
    ensures StripLeft(pad + s, Spaces) == StripLeft(s, Spaces)
  {
    if pad == "" {
      assert pad + s == s;
    } else {
      assert pad[0] in pad && (pad + s)[0] == pad[0] && (pad + s)[1..] == pad[1..] + s;
      LeadingSpaceGoes(pad[1..], s);
    }
  }

  lemma {:induction false} TrailingSpaceGoes(s: string, pad: string)
    requires AllSpace(pad)
    ensures StripRight(s + pad, Spaces) == StripRight(s, Spaces)
  {
    if pad == "" {
      assert s + pad == s;
    } else {
      var n := |pad| - 1;
      assert pad[n] in pad && (s + pad)[|s + pad| - 1] == pad[n] && (s + pad)[..|s + pad| - 1] == s + pad[..n];
      TrailingSpaceGoes(s, pad[..n]);
    }
  }

  lemma {:induction false} StripLeftAppends(s: string, pad: string)
    ensures StripLeft(s, Spaces) != "" ==> StripLeft(s + pad, Spaces) == StripLeft(s, Spaces) + pad
    ensures StripLeft(s, Spaces) == "" ==> StripLeft(s + pad, Spaces) == StripLeft(pad, Spaces)
  {
    if s == "" {
      assert s + pad == pad;
    } else {
      assert (s + pad)[0] == s[0] && (s + pad)[1..] == s[1..] + pad;
      if IsSpace(s[0]) {
        StripLeftAppends(s[1..], pad);
      }
    }
  }

  /** White space before and after a line makes no difference, so a line is kept however it is indented. */
  lemma PaddingIsIgnored(section: string, left: string, raw: string, right: string, resolve: string -> Option<string>)
    requires AllSpace(left) && AllSpace(right)
    ensures Emit(section, left + raw + right, resolve) == Emit(section, raw, resolve)
  {
    PaddingIsTrimmed(left, raw, right);
    SameTrimSameKind(left + raw + right, raw);
  }

  lemma SameTrimSameKind(a: string, b: string)
    requires Trim(a) == Trim(b)
    ensures Classify(a) == Classify(b)
  {
  }

  lemma PaddingIsTrimmed(left: string, raw: string, right: string)
    requires AllSpace(left) && AllSpace(right)
    ensures Trim(left + raw + right) == Trim(raw)
  {
    assert left + raw + right == left + (raw + right);
    LeadingSpaceGoes(left, raw + right);
    StripLeftAppends(raw, right);
    if StripLeft(raw, Spaces) == "" {
      LeadingSpaceGoes(right, "");
      assert right + "" == right;
    } else {
      TrailingSpaceGoes(StripLeft(raw, Spaces), right);
    }
  }

  // ----- what comes out is clean, and clean is what stays

  predicate Known(section: string) {
    section == "interface" || section == "peer"
  }

  function Each(lines: seq<string>, header: string -> Option<string>): seq<Option<string>> {
    seq(|lines|, i requires 0 <= i < |lines| => header(lines[i]))
  }

  /** A kept line starts the section its source line starts, and only headers of unknown sections are dropped. */
  ghost predicate Mirrors(es: seq<Emission>, headers: seq<Option<string>>, header: string -> Option<string>) {
    && |es| == |headers|
    && (forall i :: 0 <= i < |es| && es[i].Kept? ==>
          header(es[i].line) == headers[i] && (headers[i].None? ==> Known(SectionAt(headers, i))))
    && (forall i :: 0 <= i < |es| && headers[i].Some? && !es[i].Kept? ==> !Known(headers[i].value))
  }

  lemma OneMoreHeader(out: seq<string>, line: string, header: string -> Option<string>)
    ensures var before, after := Each(out, header), Each(out + [line], header);
            && (forall k :: 0 <= k <= |out| ==> SectionAt(after, k) == SectionAt(before, k))
            && SectionAt(after, |out| + 1) == if header(line).Some? then header(line).value
                else SectionAt(before, |out|)
  {
    var before, after := Each(out, header), Each(out + [line], header);
    forall k | 0 <= k <= |out| ensures SectionAt(after, k) == SectionAt(before, k) {
      SectionSame(after, before, k);
    }
  }

  /** Then each kept line that starts no section is in the section its source line was in. */
  lemma {:induction false} SectionsSurvive(
    es: seq<Emission>, headers: seq<Option<string>>, header: string -> Option<string>, fits: (string, string) -> bool,
        n: nat)
    requires n <= |es| && Mirrors(es, headers, header) && Collect(es, n).Some?
    requires forall i :: 0 <= i < |es| && es[i].Kept? ==> fits(SectionAt(headers, i), es[i].line)
    requires forall i, section :: 0 <= i < |es| && es[i].Kept? && headers[i].Some? ==> fits(section, es[i].line)
    ensures var out := Collect(es, n).value;
            && (forall k :: 0 <= k < |out| ==> fits(SectionAt(Each(out, header), k), out[k]))
            && (Known(SectionAt(headers, n)) ==> SectionAt(Each(out, header), |out|) == SectionAt(headers, n))
  {
    if n > 0 {
      SectionsSurvive(es, headers, header, fits, n - 1);
      var out := Collect(es, n - 1).value;
      if es[n - 1].Kept? {
        OneMoreHeader(out, es[n - 1].line, header);
      }
    }
  }

  /** Everything that comes out is a header or an entry allowed for the nearest header above it, endpoints
      normalised. */
  lemma OutputIsClean(lines: seq<string>, resolve: string -> Option<string>)
    requires Normalises(resolve) && Filter(lines, resolve).Some?
    requires forall k :: 0 <= k < |lines| ==> '\n' !in lines[k]
    ensures Clean(Filter(lines, resolve).value, resolve)
  {
    var es, headers, out := Emissions(lines, resolve), Headers(lines), Filter(lines, resolve).value;
    var fits := (section: string, line: string) => '\n' !in line &&
        (IsHeader(line) || CleanEntry(section, line, resolve));
    forall i | 0 <= i < |es|
      ensures es[i].Kept? ==> fits(SectionAt(headers, i), es[i].line) && HeaderOf(es[i].line) == headers[i]
      ensures es[i].Kept? && headers[i].None? ==> Known(SectionAt(headers, i))
      ensures es[i].Kept? && headers[i].Some? ==> IsHeader(es[i].line) && '\n' !in es[i].line
      ensures headers[i].Some? && !es[i].Kept? ==> !Known(headers[i].value)
    {
      LineMirrors(SectionBefore(lines, i), lines[i], resolve);
    }
    SectionsSurvive(es, headers, HeaderOf, fits, |lines|);
    assert Each(out, HeaderOf) == Headers(out);
  }

  lemma LineMirrors(section: string, raw: string, resolve: string -> Option<string>)
    requires Normalises(resolve) && '\n' !in raw
    ensures var e, header := Emit(section, raw, resolve), HeaderOf(raw);
            if e.Kept?
            then && HeaderOf(e.line) == header && '\n' !in e.line
                 && (if header.Some? then IsHeader(e.line) else CleanEntry(section, e.line, resolve) && Known(section))
            else header.Some? ==> !Known(header.value)
  {
    if Emit(section, raw, resolve).Kept? {
      if Classify(raw).Header? {
        KeptHeader(section, raw, resolve);
      } else {
        KeptEntry(section, raw, resolve);
      }
    }
  }

  lemma CleanLineStays(section: string, line: string, resolve: string -> Option<string>)
    requires IsHeader(line) || CleanEntry(section, line, resolve)
    ensures Emit(section, line, resolve) == Kept(line)
  {
    InterfaceClassifies();
    PeerClassifies();
  }

  lemma {:induction false} CollectAll(es: seq<Emission>, lines: seq<string>, n: nat)
    requires n <= |es| == |lines| && forall i :: 0 <= i < |es| ==> es[i] == Kept(lines[i])
    ensures Collect(es, n) == Some(lines[..n])
  {
    if n > 0 {
      CollectAll(es, lines, n - 1);
      assert lines[..n] == lines[..n - 1] + [lines[n - 1]];
    }
  }

  /** A clean configuration passes unchanged. */
  lemma CleanStays(lines: seq<string>, resolve: string -> Option<string>)
    requires Clean(lines, resolve)
    ensures Filter(lines, resolve) == Some(lines)
  {
    var es := Emissions(lines, resolve);
    forall i | 0 <= i < |lines| ensures es[i] == Kept(lines[i]) {
      CleanLineStays(SectionBefore(lines, i), lines[i], resolve);
    }
    CollectAll(es, lines, |lines|);
    assert lines[..|lines|] == lines;
  }

  // ----- twice is once

  lemma {:induction false} SplitLine(line: string, rest: string)
    requires '\n' !in line
    ensures Split(line + "\n" + rest) == [line] + Split(rest)
  {
    var text := line + "\n" + rest;
    if line == "" {
      assert text[0] == '\n' && text[1..] == rest;
    } else {
      SplitLine(line[1..], rest);
      assert text[0] == line[0] && text[1..] == line[1..] + "\n" + rest;
      assert [line[0]] + line[1..] == line;
    }
  }

  lemma {:induction false} SplitJoined(lines: seq<string>)
    requires lines != [] && forall k :: 0 <= k < |lines| ==> '\n' !in lines[k]
    ensures Split(Join(lines) + "\n") == lines + [""]
    decreases |lines|
  {
    if |lines| == 1 {
      SplitLine(lines[0], "");
      assert lines[0] + "\n" + "" == Join(lines) + "\n";
    } else {
      SplitJoined(lines[1..]);
      SplitLine(lines[0], Join(lines[1..]) + "\n");
      assert lines[0] + "\n" + (Join(lines[1..]) + "\n") == Join(lines) + "\n";
      assert [lines[0]] + (lines[1..] + [""]) == lines + [""];
    }
  }

  lemma BlankIsDropped(section: string, resolve: string -> Option<string>)
    ensures Emit(section, "", resolve) == Dropped
  {
    assert Trim("") == "";
  }

  lemma {:induction false} CollectSame(es: seq<Emission>, fs: seq<Emission>, n: nat)
    requires n <= |es| && n <= |fs| && forall i :: 0 <= i < n ==> es[i] == fs[i]
    ensures Collect(es, n) == Collect(fs, n)
  {
    if n > 0 {
      CollectSame(es, fs, n - 1);
    }
  }

  lemma DroppedTail(es: seq<Emission>, fs: seq<Emission>)
    requires |fs| == |es| + 1 && fs[|es|] == Dropped && forall i :: 0 <= i < |es| ==> es[i] == fs[i]
    ensures Collect(fs, |fs|) == Collect(es, |es|)
  {
    CollectSame(es, fs, |es|);
  }

  lemma EarlierEmissions(lines: seq<string>, last: string, resolve: string -> Option<string>, i: nat)
    requires i < |lines|
    ensures Emissions(lines + [last], resolve)[i] == Emissions(lines, resolve)[i]
  {
    SectionSame(Headers(lines + [last]), Headers(lines), i);
  }

  lemma BlankTailIsNothing(lines: seq<string>, resolve: string -> Option<string>)
    ensures Filter(lines + [""], resolve) == Filter(lines, resolve)
  {
    var es, fs := Emissions(lines, resolve), Emissions(lines + [""], resolve);
    forall i | 0 <= i < |lines| ensures es[i] == fs[i] {
      EarlierEmissions(lines, "", resolve, i);
    }
    BlankIsDropped(SectionBefore(lines + [""], |lines|), resolve);
    DroppedTail(es, fs);
  }

  lemma NothingStaysNothing(resolve: string -> Option<string>)
    ensures Filter(Split("\n"), resolve) == Some([])
  {
    SplitLine("", "");
    assert "" + "\n" + "" == "\n" && [""] + Split("") == [] + [""] + [""];
    BlankTailIsNothing([] + [""], resolve);
    BlankTailIsNothing([], resolve);
  }

  /** Sanitising what has been sanitised changes nothing. */
  lemma SanitizingTwiceIsOnce(config: string, resolve: string -> Option<string>)
    requires Normalises(resolve) && Sanitized(config, resolve).Some?
    ensures Sanitized(Sanitized(config, resolve).value, resolve) == Sanitized(config, resolve)
  {
    var out := Filter(Split(config), resolve).value;
    OutputIsClean(Split(config), resolve);
    if out == [] {
      assert Join(out) + "\n" == "\n";
      NothingStaysNothing(resolve);
    } else {
      SplitJoined(out);
      BlankTailIsNothing(out, resolve);
      CleanStays(out, resolve);
    }
  }
}
