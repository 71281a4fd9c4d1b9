/** `makeSafeName` and the deploy-name fallback: the chain `toLowerCase` → replace every character
    outside `[a-z0-9-_]` by `-` → collapse runs of `-` → drop one leading and one trailing `-` →
    keep the first 100 characters; an empty result is replaced by `deploy-project`. */
module SafeName {

  /** The length kept by the final `.slice(0, 100)`. */
  const MaxLength := 100

  /** The name used when sanitising leaves nothing. */
  const Fallback := "deploy-project"

  /** A member of the class `[a-z0-9-_]`. */
  predicate IsSafeChar(c: char) {
    'a' <= c <= 'z' || '0' <= c <= '9' || c == '-' || c == '_'
  }

  predicate AllSafe(s: string) {
    forall i | 0 <= i < |s| :: IsSafeChar(s[i])
  }

  predicate NoDoubleDash(s: string) {
    forall i | 0 <= i < |s| - 1 :: !(s[i] == '-' && s[i + 1] == '-')
  }

  predicate StartsWithDash(s: string) {
    |s| > 0 && s[0] == '-'
  }

  predicate EndsWithDash(s: string) {
    |s| > 0 && s[|s| - 1] == '-'
  }

  /** A name the sanitiser leaves alone (up to the length cut): safe characters only, no `--`,
      no dash at either end. */
  predicate IsCanonical(s: string) {
    AllSafe(s) && NoDoubleDash(s) && !StartsWithDash(s) && !EndsWithDash(s)
  }

  /** The characters of `s` other than `-`, in order. */
  function NonDash(s: string): string {
    if s == [] then [] else (if s[0] == '-' then [] else [s[0]]) + NonDash(s[1..])
  }

  lemma {:induction false} NonDashAppend(a: string, b: string)
    ensures NonDash(a + b) == NonDash(a) + NonDash(b)
  {
    if a == [] {
      assert a + b == b;
    } else {
      assert (a + b)[1..] == a[1..] + b;
      NonDashAppend(a[1..], b);
    }
  }

  /** ASCII `toLowerCase` of one character; every other character is left as it is. */
  function ToLower(c: char): char {
    if 'A' <= c <= 'Z' then (c as int + 32) as char else c
  }

  /** `.toLowerCase()` */
  function Lower(s: string): (r: string)
    ensures |r| == |s|
  {
    seq(|s|, i requires 0 <= i < |s| => ToLower(s[i]))
  }

  /** `.replace(/[^a-z0-9-_]/g, '-')` */
  function Dashify(s: string): (r: string)
    ensures |r| == |s|
  {
    seq(|s|, i requires 0 <= i < |s| => if IsSafeChar(s[i]) then s[i] else '-')
  }

  /** Every character outside the class becomes a dash, the others stay where they are. */
  lemma DashifyFacts(s: string)
    ensures var r := Dashify(s);
      && AllSafe(r)
      && (forall i | 0 <= i < |s| :: IsSafeChar(s[i]) ==> r[i] == s[i])
      && (forall i | 0 <= i < |s| :: !IsSafeChar(s[i]) ==> r[i] == '-')
  {
  }

  /** `.replace(/-+/g, '-')` */
  function CollapseDashes(s: string): string {
    if |s| <= 1 then s
    else if s[0] == '-' && s[1] == '-' then CollapseDashes(s[1..])
    else [s[0]] + CollapseDashes(s[1..])
  }

  /** Every run of dashes becomes one dash: only dashes are removed, the first and last
      characters are kept, and no `--` is left. */
  lemma {:induction false} CollapseDashesFacts(s: string)
    ensures var r := CollapseDashes(s);
      && |r| <= |s|
      && NonDash(r) == NonDash(s)
      && NoDoubleDash(r)
      && (|s| > 0 ==> |r| > 0 && r[0] == s[0] && r[|r| - 1] == s[|s| - 1])
      && (AllSafe(s) ==> AllSafe(r))
  {
    if |s| > 1 {
      var rest := CollapseDashes(s[1..]);
      CollapseDashesFacts(s[1..]);
      assert AllSafe(s) ==> AllSafe(s[1..]) by {
        if AllSafe(s) {
          forall i | 0 <= i < |s[1..]| ensures IsSafeChar(s[1..][i]) {
            assert s[1..][i] == s[i + 1];
          }
        }
      }
      if !(s[0] == '-' && s[1] == '-') {
        var r := [s[0]] + rest;
        assert r[1..] == rest;
        assert AllSafe(s) ==> AllSafe(r) by {
          if AllSafe(s) {
            forall i | 0 <= i < |r| ensures IsSafeChar(r[i]) {
              if i > 0 {
                assert r[i] == rest[i - 1];
              }
            }
          }
        }
      }
    }
  }

  /** `.replace(/^-|-$/g, '')`: one dash is dropped at the front and one at the back. */
  function StripDashEnds(s: string): string {
    var t := if StartsWithDash(s) then s[1..] else s;
    if EndsWithDash(t) then t[..|t| - 1] else t
  }

  /** Only dashes are removed, and on text without `--` nothing is left at either end. */
  lemma StripDashEndsFacts(s: string)
    ensures var r := StripDashEnds(s);
      && |r| <= |s|
      && NonDash(r) == NonDash(s)
      && (NoDoubleDash(s) ==> NoDoubleDash(r) && !StartsWithDash(r) && !EndsWithDash(r))
      && (AllSafe(s) ==> AllSafe(r))
      && (|s| > 0 && !StartsWithDash(s) ==> |r| > 0 && r[0] == s[0])
      && (var a := if StartsWithDash(s) then 1 else 0;
          var b := if |s| > a && s[|s| - 1] == '-' then |s| - 1 else |s|;
          a <= b <= |s| && r == s[a..b])
  {
    var a := if StartsWithDash(s) then 1 else 0;
    var b := if |s| > a && s[|s| - 1] == '-' then |s| - 1 else |s|;
    var r := StripDashEnds(s);
    StripDashEndsIsSlice(s);
    StripDashEndsKeepsNonDash(s);
    SliceKeeps(s, a, b);
    if NoDoubleDash(s) && r != [] {
      assert r[0] == s[a] && r[|r| - 1] == s[b - 1];
      assert a == 1 ==> s[0] == '-' && s[1] != '-';
      assert b == |s| - 1 ==> s[|s| - 1] == '-' && s[|s| - 2] != '-';
    }
  }

  lemma StripDashEndsIsSlice(s: string)
    ensures var a := if StartsWithDash(s) then 1 else 0;
      var b := if |s| > a && s[|s| - 1] == '-' then |s| - 1 else |s|;
      a <= b <= |s| && StripDashEnds(s) == s[a..b]
  {
    var a := if StartsWithDash(s) then 1 else 0;
    var t := s[a..];
    if EndsWithDash(t) {
      assert t[|t| - 1] == s[|s| - 1];
      assert t[..|t| - 1] == s[a..|s| - 1];
    } else {
      assert |t| == 0 || t[|t| - 1] == s[|s| - 1];
    }
  }

  /** A slice of safe text is safe, and a slice of text without `--` has none. */
  lemma SliceKeeps(s: string, a: int, b: int)
    requires 0 <= a <= b <= |s|
    ensures AllSafe(s) ==> AllSafe(s[a..b])
    ensures NoDoubleDash(s) ==> NoDoubleDash(s[a..b])
  {
    assert forall i | 0 <= i < b - a :: s[a..b][i] == s[a + i];
  }

  lemma StripDashEndsKeepsNonDash(s: string)
    ensures NonDash(StripDashEnds(s)) == NonDash(s)
  {
    var t := if StartsWithDash(s) then s[1..] else s;
    if StartsWithDash(s) {
      assert s == [s[0]] + t;
      NonDashAppend([s[0]], t);
    }
    if EndsWithDash(t) {
      var r := t[..|t| - 1];
      assert t == r + [t[|t| - 1]];
      NonDashAppend(r, [t[|t| - 1]]);
    }
  }

  /** `.slice(0, 100)` */
  function Clip(s: string): (r: string)
    ensures |r| <= MaxLength && |r| <= |s| && r == s[..|r|]
    ensures |s| <= MaxLength ==> r == s
    ensures |s| > MaxLength ==> |r| == MaxLength
  {
    if |s| <= MaxLength then s else s[..MaxLength]
  }

  /** The text before the length cut: safe characters only, no `--`, no dash at either end, and
      every letter, digit and underscore of the lowercased name in order. */
  function Unclipped(name: string): string {
    StripDashEnds(CollapseDashes(Dashify(Lower(name))))
  }

  /** Before the cut the text is canonical and keeps every letter, digit and underscore of the
      lowercased name in order. */
  lemma UnclippedFacts(name: string)
    ensures IsCanonical(Unclipped(name))
    ensures NonDash(Unclipped(name)) == NonDash(Dashify(Lower(name)))
  {
    var dashed := Dashify(Lower(name));
    DashifyFacts(Lower(name));
    CollapseDashesFacts(dashed);
    StripDashEndsFacts(CollapseDashes(dashed));
  }

  /** `makeSafeName(name)` */
  function MakeSafeName(name: string): (r: string)
    ensures |r| <= MaxLength
  {
    Clip(Unclipped(name))
  }

  /** The result is at most 100 characters of `[a-z0-9-_]`, with no `--` and never a leading
      dash. */
  lemma MakeSafeNameIsValid(name: string)
    ensures var r := MakeSafeName(name);
      AllSafe(r) && NoDoubleDash(r) && !StartsWithDash(r)
  {
    UnclippedFacts(name);
    ClipOfCanonical(Unclipped(name));
  }

  /** The length cut keeps the safe characters, adds no `--` and no leading dash. */
  lemma ClipOfCanonical(s: string)
    requires IsCanonical(s)
    ensures var r := Clip(s);
      AllSafe(r) && NoDoubleDash(r) && !StartsWithDash(r)
  {
    var r := Clip(s);
    forall i | 0 <= i < |r| ensures r[i] == s[i] {
    }
  }

  /** `makeSafeName(base) || 'deploy-project'`: never empty, and the sanitised name whenever that
      is not empty. */
  function DeployName(base: string): (r: string)
    ensures 0 < |r| <= MaxLength
    ensures MakeSafeName(base) != "" ==> r == MakeSafeName(base)
  {
    var safe := MakeSafeName(base);
    if safe == "" then Fallback else safe
  }

  /** The deploy name is valid in the same sense as a sanitised name. */
  lemma DeployNameIsValid(base: string)
    ensures var r := DeployName(base);
      AllSafe(r) && NoDoubleDash(r) && !StartsWithDash(r)
  {
    MakeSafeNameIsValid(base);
    if MakeSafeName(base) == "" {
      assert forall i | 0 <= i < |Fallback| :: IsSafeChar(Fallback[i]);
    }
  }

  /** A canonical name comes out as its first 100 characters. */
  lemma {:induction false} MakeSafeNameOfCanonical(s: string)
    requires IsCanonical(s)
    ensures MakeSafeName(s) == Clip(s)
  {
    assert Lower(s) == s by {
      forall i | 0 <= i < |s| ensures Lower(s)[i] == s[i] {
        assert IsSafeChar(s[i]);
      }
    }
    assert Dashify(s) == s;
    CollapseFixpoint(s);
  }

  /** A name that is already lowercase `[a-z0-9-_]`, without `--`, without a dash at either end
      and at most 100 characters long is returned unchanged. */
  lemma MakeSafeNameFixpoint(s: string)
    requires IsCanonical(s) && |s| <= MaxLength
    ensures MakeSafeName(s) == s
  {
    MakeSafeNameOfCanonical(s);
  }

  lemma {:induction false} CollapseFixpoint(s: string)
    requires NoDoubleDash(s)
    ensures CollapseDashes(s) == s
  {
    if |s| > 1 {
      CollapseFixpoint(s[1..]);
      assert [s[0]] + s[1..] == s;
    }
  }

  /** A result ends in a dash only when the length cut produced it: before the cut there is
      never a trailing dash. */
  lemma TrailingDashOnlyFromCut(name: string)
    requires EndsWithDash(MakeSafeName(name))
    ensures |Unclipped(name)| > MaxLength
  {
    UnclippedFacts(name);
  }

  /** Such a result exists: 99 letters, a dash and one more letter are cut just after the dash. */
  lemma TrailingDashIsPossible()
    ensures exists name :: EndsWithDash(MakeSafeName(name))
  {
    var s := seq(99, _ => 'a') + ['-', 'b'];
    assert IsCanonical(s) by {
      forall i | 0 <= i < |s| ensures s[i] == (if i == 99 then '-' else if i == 100 then 'b' else 'a') {
      }
    }
    MakeSafeNameOfCanonical(s);
    assert MakeSafeName(s)[99] == '-';
  }

  /** When nothing is cut, every letter, digit and underscore of the lowercased name survives,
      in order. */
  lemma MakeSafeNameKeepsContent(name: string)
    requires |Unclipped(name)| <= MaxLength
    ensures NonDash(MakeSafeName(name)) == NonDash(Dashify(Lower(name)))
  {
    UnclippedFacts(name);
  }

  /** A character that lowercases into `[a-z0-9_]`: it reaches the name as itself, lowercased. */
  predicate IsWordChar(c: char) {
    IsSafeChar(ToLower(c)) && ToLower(c) != '-'
  }

  /** A character that the replace turns into a dash (a dash, or anything outside the class after
      lowercasing). */
  predicate IsSeparator(c: char) {
    !IsSafeChar(ToLower(c)) || ToLower(c) == '-'
  }

  predicate AllDashes(s: string) {
    forall i | 0 <= i < |s| :: s[i] == '-'
  }

  lemma LowerDashifyAppend(a: string, b: string)
    ensures Dashify(Lower(a + b)) == Dashify(Lower(a)) + Dashify(Lower(b))
  {
    assert Lower(a + b) == Lower(a) + Lower(b);
  }

  /** A run of separators is dashified into a run of dashes. */
  lemma SeparatorsDashify(sep: string)
    requires forall i | 0 <= i < |sep| :: IsSeparator(sep[i])
    ensures AllDashes(Dashify(Lower(sep)))
  {
  }

  /** The collapse never joins across a character that is not a dash: when `x` does not end in a
      dash, `x + z` collapses piece by piece. */
  lemma {:induction false} CollapseAppend(x: string, z: string)
    requires !EndsWithDash(x)
    ensures CollapseDashes(x + z) == CollapseDashes(x) + CollapseDashes(z)
  {
    if |x| == 1 {
      if z != [] {
        assert (x + z)[1..] == z;
      } else {
        assert x + z == x;
      }
    } else if |x| > 1 {
      assert (x + z)[1..] == x[1..] + z;
      assert x[1..][|x| - 2] == x[|x| - 1];
      CollapseAppend(x[1..], z);
    } else {
      assert x + z == z;
    }
  }

  /** A run of dashes in front of text that does not start with a dash becomes one dash. */
  lemma {:induction false} CollapseDashRun(d: string, y: string)
    requires d != [] && AllDashes(d) && !StartsWithDash(y)
    ensures CollapseDashes(d + y) == "-" + CollapseDashes(y)
  {
    if |d| == 1 {
      if y != [] {
        assert (d + y)[1..] == y;
      }
    } else {
      assert (d + y)[1..] == d[1..] + y;
      CollapseDashRun(d[1..], y);
    }
  }

  /** Each run of dashes between two other characters survives the collapse as exactly one
      dash. */
  lemma CollapseAroundRun(x: string, d: string, y: string)
    requires !EndsWithDash(x) && d != [] && AllDashes(d) && !StartsWithDash(y)
    ensures CollapseDashes(x + d + y) == CollapseDashes(x) + "-" + CollapseDashes(y)
  {
    assert x + d + y == x + (d + y);
    CollapseAppend(x, d + y);
    CollapseDashRun(d, y);
  }

  /** The end strip only looks at the two ends: a dash between two non-dash characters stays. */
  lemma StripAroundDash(a: string, b: string)
    requires a != [] && a[|a| - 1] != '-' && b != [] && b[0] != '-'
    ensures StripDashEnds(a + "-" + b) == StripDashEnds(a) + "-" + StripDashEnds(b)
  {
    var s := a + "-" + b;
    var a1 := if StartsWithDash(a) then a[1..] else a;
    var b1 := if EndsWithDash(b) then b[..|b| - 1] else b;
    assert StripDashEnds(a) == a1;
    assert StripDashEnds(b) == b1;
    var t := if StartsWithDash(s) then s[1..] else s;
    assert t == a1 + "-" + b;
    assert EndsWithDash(t) == EndsWithDash(b);
  }

  /** Before the cut, the name of `x`, a run of separators and `y` is the name of `x`, one dash
      and the name of `y`, when the characters on either side of the run are kept. */
  lemma UnclippedAroundSeparators(x: string, sep: string, y: string)
    requires x != [] && IsWordChar(x[|x| - 1])
    requires sep != [] && forall i | 0 <= i < |sep| :: IsSeparator(sep[i])
    requires y != [] && IsWordChar(y[0])
    ensures Unclipped(x + sep + y) == Unclipped(x) + "-" + Unclipped(y)
  {
    var dx, ds, dy := Dashify(Lower(x)), Dashify(Lower(sep)), Dashify(Lower(y));
    LowerDashifyAppend(x + sep, y);
    LowerDashifyAppend(x, sep);
    SeparatorsDashify(sep);
    assert dx[|dx| - 1] == ToLower(x[|x| - 1]);
    assert dy[0] == ToLower(y[0]);
    CollapseAroundRun(dx, ds, dy);
    CollapseDashesFacts(dx);
    CollapseDashesFacts(dy);
    StripAroundDash(CollapseDashes(dx), CollapseDashes(dy));
  }

  /** Separated parts are sanitised separately and joined with one dash, as long as nothing is
      cut: `makeSafeName("a b") == "a-b"`, `makeSafeName("My__App--v2") == "my__app-v2"`. */
  lemma MakeSafeNameAroundSeparators(x: string, sep: string, y: string)
    requires x != [] && IsWordChar(x[|x| - 1])
    requires sep != [] && forall i | 0 <= i < |sep| :: IsSeparator(sep[i])
    requires y != [] && IsWordChar(y[0])
    requires |Unclipped(x)| + |Unclipped(y)| < MaxLength
    ensures MakeSafeName(x + sep + y) == MakeSafeName(x) + "-" + MakeSafeName(y)
  {
    UnclippedAroundSeparators(x, sep, y);
  }

  /** A name made only of letters, digits and underscores is just lowercased before the cut. */
  lemma UnclippedOfWord(x: string)
    requires forall i | 0 <= i < |x| :: IsWordChar(x[i])
    ensures Unclipped(x) == Lower(x)
  {
    var l := Lower(x);
    assert Dashify(l) == l;
    CollapseFixpoint(l);
  }

  /** Two words around a run of separators come out lowercased and joined by one dash. */
  lemma MakeSafeNameOfTwoWords(x: string, sep: string, y: string)
    requires x != [] && forall i | 0 <= i < |x| :: IsWordChar(x[i])
    requires sep != [] && forall i | 0 <= i < |sep| :: IsSeparator(sep[i])
    requires y != [] && forall i | 0 <= i < |y| :: IsWordChar(y[i])
    requires |x| + |y| < MaxLength
    ensures MakeSafeName(x + sep + y) == Lower(x) + "-" + Lower(y)
  {
    UnclippedOfWord(x);
    UnclippedOfWord(y);
    UnclippedAroundSeparators(x, sep, y);
  }
}
