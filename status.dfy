/** The parser inside `sendStatus`: the output of `git status --porcelain` is split on newlines,
    each line is trimmed, blank lines are dropped, and a line longer than 3 characters loses its
    first 3 characters and is trimmed again. The trim comes before the cut, exactly as in the
    code, so a line whose status column starts with a space loses the first character of its
    path. */
module Status {
  import opened JsString

  /** `l => (l.length > 3 ? l.slice(3).trim() : l.trim())` */
  function Entry(l: string): string {
    if |l| > 3 then Trim(l[3..]) else Trim(l)
  }

  /** `.map(l => l.trim())` */
  function TrimLines(lines: seq<string>): (r: seq<string>)
    ensures |r| == |lines|
  {
    seq(|lines|, i requires 0 <= i < |lines| => Trim(lines[i]))
  }

  /** Every trimmed line is the trim of the line at the same place. */
  lemma TrimLinesFacts(lines: seq<string>)
    ensures forall k | 0 <= k < |lines| :: TrimLines(lines)[k] == Trim(lines[k]) && IsTrimmed(TrimLines(lines)[k])
  {
    forall k | 0 <= k < |lines| ensures IsTrimmed(Trim(lines[k])) {
      TrimFacts(lines[k]);
    }
  }

  /** `.filter(Boolean)`: the non-empty strings, in order. */
  function DropEmpty(ls: seq<string>): seq<string> {
    if ls == [] then []
    else (if ls[0] == "" then [] else [ls[0]]) + DropEmpty(ls[1..])
  }

  /** What the filter keeps: non-empty strings taken from its input, no more of them than there
      were, and every non-empty input string. */
  lemma {:induction false} DropEmptyKeeps(ls: seq<string>)
    ensures var r := DropEmpty(ls);
      && |r| <= |ls|
      && (forall k | 0 <= k < |r| :: r[k] != "" && r[k] in ls)
      && (forall s | s in ls && s != "" :: s in r)
  {
    if ls != [] {
      DropEmptyKeeps(ls[1..]);
      var head: seq<string> := if ls[0] == "" then [] else [ls[0]];
      var r := head + DropEmpty(ls[1..]);
      forall k | 0 <= k < |r| ensures r[k] != "" && r[k] in ls {
        if k >= |head| {
          assert r[k] == DropEmpty(ls[1..])[k - |head|];
        }
      }
      forall s | s in ls && s != "" ensures s in r {
        if s != ls[0] {
          assert s in ls[1..];
        }
      }
    }
  }

  /** `.map(entry)` */
  function Entries(ls: seq<string>): (r: seq<string>)
    ensures |r| == |ls|
  {
    if ls == [] then [] else [Entry(ls[0])] + Entries(ls[1..])
  }

  /** Each entry comes from the line at the same place. */
  lemma {:induction false} EntriesAt(ls: seq<string>)
    ensures forall k | 0 <= k < |ls| :: Entries(ls)[k] == Entry(ls[k])
  {
    if ls != [] {
      EntriesAt(ls[1..]);
      forall k | 1 <= k < |ls| ensures Entries(ls)[k] == Entries(ls[1..])[k - 1] {
      }
    }
  }

  /** The file list posted to the panel for the given status output. */
  function ParseStatus(stdout: string): seq<string> {
    Entries(DropEmpty(TrimLines(Split(stdout))))
  }

  /** No entry is empty, and none has whitespace at its ends. */
  lemma StatusEntriesNonEmpty(stdout: string)
    ensures forall k | 0 <= k < |ParseStatus(stdout)| ::
      ParseStatus(stdout)[k] != "" && IsTrimmed(ParseStatus(stdout)[k])
  {
    var trimmed := TrimLines(Split(stdout));
    var kept := DropEmpty(trimmed);
    DropEmptyKeeps(trimmed);
    TrimLinesFacts(Split(stdout));
    EntriesAt(kept);
    forall k | 0 <= k < |kept| ensures Entry(kept[k]) != "" && IsTrimmed(Entry(kept[k])) {
      assert IsTrimmed(kept[k]) by {
        var j :| 0 <= j < |trimmed| && trimmed[j] == kept[k];
      }
      EntryNonEmpty(kept[k]);
      var l := kept[k];
      if |l| > 3 { TrimFacts(l[3..]); } else { TrimFacts(l); }
    }
  }

  /** A non-empty trimmed line never gives an empty entry: when it is longer than 3 characters its
      last character, which is not whitespace, survives the cut. */
  lemma EntryNonEmpty(l: string)
    requires l != "" && IsTrimmed(l)
    ensures Entry(l) != ""
  {
    if |l| > 3 {
      var tail := l[3..];
      assert tail[|tail| - 1] == l[|l| - 1];
      TrimFacts(tail);
    } else {
      TrimFacts(l);
    }
  }

  /** A trimmed line of at most 3 characters is kept whole. */
  lemma ShortLineKeptWhole(l: string)
    requires IsTrimmed(l) && |l| <= 3
    ensures Entry(l) == l
  {
    TrimOfTrimmed(l);
  }

  lemma {:induction false} DropEmptyAppend(a: seq<string>, b: seq<string>)
    ensures DropEmpty(a + b) == DropEmpty(a) + DropEmpty(b)
  {
    if a == [] {
      assert a + b == b;
    } else {
      assert (a + b)[1..] == a[1..] + b;
      DropEmptyAppend(a[1..], b);
    }
  }

  /** Line order is kept: the entries for `a + "\n" + b` are those for `a` followed by those for
      `b`. */
  lemma StatusOfJoin(a: string, b: string)
    ensures ParseStatus(a + "\n" + b) == ParseStatus(a) + ParseStatus(b)
  {
    SplitAtNewline(a, b);
    var la, lb := Split(a), Split(b);
    TrimLinesAppend(la, lb);
    DropEmptyAppend(TrimLines(la), TrimLines(lb));
    EntriesAppend(DropEmpty(TrimLines(la)), DropEmpty(TrimLines(lb)));
  }

  lemma TrimLinesAppend(a: seq<string>, b: seq<string>)
    ensures TrimLines(a + b) == TrimLines(a) + TrimLines(b)
  {
    var l, r := TrimLines(a + b), TrimLines(a) + TrimLines(b);
    forall i | 0 <= i < |l| ensures l[i] == r[i] {
      if i < |a| { assert (a + b)[i] == a[i]; } else { assert (a + b)[i] == b[i - |a|]; }
    }
  }

  lemma {:induction false} EntriesAppend(a: seq<string>, b: seq<string>)
    ensures Entries(a + b) == Entries(a) + Entries(b)
  {
    if a == [] {
      assert a + b == b;
    } else {
      assert (a + b)[1..] == a[1..] + b;
      EntriesAppend(a[1..], b);
    }
  }

  /** One line gives nothing when it is blank and otherwise one entry, made from the trimmed
      line. */
  lemma StatusOfLine(line: string)
    requires '\n' !in line
    ensures AllSpace(line) ==> ParseStatus(line) == []
    ensures !AllSpace(line) ==> ParseStatus(line) == [Entry(Trim(line))]
  {
    SplitOneLine(line);
    TrimFacts(line);
    var t := Trim(line);
    assert TrimLines([line]) == [t];
    assert [t][1..] == [];
    assert DropEmpty([t]) == (if t == "" then [] else [t]);
  }

  /** A porcelain line `XY path` whose first status column is not blank (a staged change, an
      untracked `??` file) gives its path. */
  lemma StatusOfMarkedLine(x: char, y: char, path: string)
    requires !IsSpace(x) && y != '\n' && '\n' !in path
    requires path != [] && IsTrimmed(path)
    ensures ParseStatus([x, y, ' '] + path) == [path]
  {
    var l := [x, y, ' '] + path;
    PrefixedLineShape([x, y, ' '], path);
    assert !AllSpace(l) by { assert !IsSpace(l[0]); }
    StatusOfLine(l);
    TrimOfTrimmed(l);
    TrimOfTrimmed(path);
  }

  /** Because the trim comes before the cut, a line whose first status column is blank (an unstaged
      change, ` M path`) loses the first character of its path. */
  lemma StatusOfUnstagedLine(y: char, path: string)
    requires !IsSpace(y) && '\n' !in path
    requires |path| >= 2 && IsTrimmed(path)
    ensures ParseStatus([' ', y, ' '] + path) == [Trim(path[1..])]
  {
    var l := [' ', y, ' '] + path;
    UnstagedLineFacts(y, path);
    StatusOfLine(l);
  }

  lemma UnstagedLineFacts(y: char, path: string)
    requires !IsSpace(y) && '\n' !in path
    requires |path| >= 2 && IsTrimmed(path)
    ensures var l := [' ', y, ' '] + path;
      '\n' !in l && !AllSpace(l) && Entry(Trim(l)) == Trim(path[1..])
  {
    var l := [' ', y, ' '] + path;
    IndentedLineTrim(y, path);
    EntryOfLong(l[1..], path[1..]);
  }

  lemma IndentedLineTrim(y: char, path: string)
    requires !IsSpace(y) && '\n' !in path
    requires |path| >= 2 && IsTrimmed(path)
    ensures var l := [' ', y, ' '] + path;
      '\n' !in l && !AllSpace(l) && Trim(l) == l[1..] && l[1..][3..] == path[1..]
  {
    var l := [' ', y, ' '] + path;
    PrefixedLineShape([' ', y, ' '], path);
    assert !IsSpace(l[1]);
    TrimOfOneSpaceIndent(l);
  }

  /** Basic facts about a line made of a three-character status prefix and a path. */
  lemma PrefixedLineShape(prefix: string, path: string)
    requires |prefix| == 3 && '\n' !in prefix && '\n' !in path && path != []
    ensures var l := prefix + path;
      '\n' !in l && l[3..] == path && l[1..][2..] == path && l[|l| - 1] == path[|path| - 1]
      && l[0] == prefix[0] && l[1] == prefix[1]
  {
  }

  lemma EntryOfLong(t: string, rest: string)
    requires |t| > 3 && t[3..] == rest
    ensures Entry(t) == Trim(rest)
  {
  }

  lemma TrimOfOneSpaceIndent(l: string)
    requires |l| >= 2 && IsSpace(l[0]) && !IsSpace(l[1]) && !IsSpace(l[|l| - 1])
    ensures Trim(l) == l[1..]
  {
    var t := l[1..];
    assert TrimStart(t) == t;
    assert TrimStart(l) == t;
    assert TrimEnd(t) == t;
  }
}
