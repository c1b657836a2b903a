/** What becomes of each line of a WireGuard configuration, and that the lines kept come out in order, said of the text
    alone. */
module WireGuardAnswers {
  import opened Wrappers
  import opened WireGuard

  // ----- characters

  /** In ASCII text, what counts as white space and as the lower case of a letter. */
  lemma AsciiIs(s: string, i: nat)
    requires i < |s| && s[i] < 128 as char
    ensures IsSpace(s[i]) <==> s[i] in " \t\n\r\U{0B}\U{0C}"
    ensures |Lower(s)| == |s|
    ensures Lower(s)[i] == if 'A' <= s[i] <= 'Z' then s[i] - 'A' + 'a' else s[i]
  {
  }

  // ----- one line

  /** Blank lines, comments, and lines that are neither a header nor have an equals sign go. */
  lemma NothingIsKept(section: string, raw: string, resolve: string -> Option<string>)
    requires var line := Trim(raw);
             line == "" || line[0] == '#' || line[0] == ';' || ('=' !in line && line[0] != '[')
    ensures Emit(section, raw, resolve) == Dropped && HeaderOf(raw) == None
  {
  }

  /** A name in brackets starts its section, upper or lower case, and is kept for the two sections there are. */
  lemma HeaderIsKept(section: string, raw: string, name: string, resolve: string -> Option<string>)
    requires Trim(raw) == "[" + name + "]" && Trimmed(name)
    requires name == "" || (name[0] !in "[]" && name[|name| - 1] !in "[]")
    ensures HeaderOf(raw) == Some(Lower(name))
    ensures Emit(section, raw, resolve) ==
            if Lower(name) == "interface" then Kept("[Interface]")
            else if Lower(name) == "peer" then Kept("[Peer]") else Dropped
  {
    BracketsGo(name);
  }

  lemma BracketsGo(name: string)
    requires name == "" || (name[0] !in "[]" && name[|name| - 1] !in "[]")
    ensures Strip("[" + name + "]", Brackets) == name
  {
    if name == "" {
      assert "[" + name + "]" == "[]" && "[]"[1..] == "]" && "]"[1..] == "";
      assert StripLeft("]", Brackets) == StripLeft("", Brackets) == "";
    } else {
      BracketsComeOff(name);
    }
  }

  /** An entry is kept as it stands exactly under the names of its section, whatever their case; a peer's endpoint
      is kept in its normal form, and fails if it has none. */
  lemma EntryIsKept(section: string, raw: string, left: string, right: string, resolve: string -> Option<string>)
    requires Trim(raw) == left + "=" + right && '=' !in left && (left == "" || left[0] !in "#;[")
    ensures HeaderOf(raw) == None
    ensures var key, e := Lower(Trim(left)), Emit(section, raw, resolve);
            if section == "peer" && key == "endpoint"
            then e == match resolve(Trim(right))
                      case None => Unresolved
                      case Some(normal) => Kept(Trim(left) + " = " + normal)
            else if || (section == "interface" && key in {"privatekey", "listenport", "fwmark"})
                    || (section == "peer" && key in {"publickey", "presharedkey", "allowedips", "persistentkeepalive"})
            then e == Kept(left + "=" + right)
            else e == Dropped
  {
    EntryClassifies(raw, left, right);
  }

  lemma EntryClassifies(raw: string, left: string, right: string)
    requires Trim(raw) == left + "=" + right && '=' !in left && (left == "" || left[0] !in "#;[")
    ensures Classify(raw) == Entry(Trim(left), Trim(right))
  {
    var line := left + "=" + right;
    assert line[|left|] == '=' && forall i :: 0 <= i < |left| ==> line[i] == left[i];
    assert FirstEquals(line, 0) == Some(|left|);
    assert line[..|left|] == left && line[|left| + 1..] == right;
    assert line[0] == if left == "" then '=' else left[0];
  }

  // ----- all lines

  lemma {:induction false} SectionOfPrefix(a: seq<string>, b: seq<string>, i: nat)
    requires i <= |a| && i <= |b| && forall k :: 0 <= k < i ==> a[k] == b[k]
    ensures SectionBefore(a, i) == SectionBefore(b, i)
  {
    if i > 0 {
      SectionOfPrefix(a, b, i - 1);
    }
  }

  /** The section in force after one more line is the line's own if it is a header, and the one before if not. */
  lemma SectionGoesOn(lines: seq<string>, last: string)
    ensures SectionBefore([], 0) == ""
    ensures SectionBefore(lines + [last], |lines| + 1) ==
            if HeaderOf(last).Some? then HeaderOf(last).value else SectionBefore(lines, |lines|)
  {
    SectionOfPrefix(lines + [last], lines, |lines|);
  }

  lemma {:induction false} CollectOfPrefix(a: seq<Emission>, b: seq<Emission>, n: nat)
    requires n <= |a| && n <= |b| && forall k :: 0 <= k < n ==> a[k] == b[k]
    ensures Collect(a, n) == Collect(b, n)
  {
    if n > 0 {
      CollectOfPrefix(a, b, n - 1);
    }
  }

  /** One more line adds what it turns into at the end, adds nothing, or makes the whole fail. */
  lemma OneMoreLine(lines: seq<string>, last: string, resolve: string -> Option<string>)
    ensures Filter([], resolve) == Some([])
    ensures var before, e := Filter(lines, resolve), Emit(SectionBefore(lines, |lines|), last, resolve);
            Filter(lines + [last], resolve) ==
            if before.None? || e == Unresolved then None
            else if e == Dropped then before else Some(before.value + [e.line])
  {
    var es, fs := Emissions(lines + [last], resolve), Emissions(lines, resolve);
    forall k | 0 <= k < |lines| ensures es[k] == fs[k] {
      SectionOfPrefix(lines + [last], lines, k);
    }
    SectionOfPrefix(lines + [last], lines, |lines|);
    CollectOfPrefix(es, fs, |lines|);
  }

  /** The configuration's lines, the last one ended or not, come out as their filtered lines, each ended. */
  lemma TextIsFiltered(lines: seq<string>, resolve: string -> Option<string>)
    requires lines != [] && forall k :: 0 <= k < |lines| ==> '\n' !in lines[k]
    ensures var out := Filter(lines + [""], resolve);
            Sanitized(Join(lines) + "\n", resolve) == if out.None? then None else Some(Join(out.value) + "\n")
    ensures Join(lines) == if |lines| == 1 then lines[0] else lines[0] + "\n" + Join(lines[1..])
  {
    SplitJoined(lines);
  }
}
