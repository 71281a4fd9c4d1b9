/** How the extension puts a path into a command line: `"` + the path with every `"` replaced
    by `\"` + `"`, and `git add` takes these quoted paths joined by single spaces. Only the
    string transformation is modelled; the reading back is the left-to-right inverse of the
    escape, not a shell. */
module ShellQuote {
  import opened Wrappers

  /** `p.replace(/"/g, '\\"')` */
  function Escape(p: string): string {
    if p == [] then []
    else (if p[0] == '"' then ['\\', '"'] else [p[0]]) + Escape(p[1..])
  }

  /** A backslash goes before every double quote: the escaped text does not start with a quote,
      every quote in it follows a backslash, and it ends in a backslash only when the path does. */
  lemma {:induction false} EscapeFacts(p: string)
    ensures var r := Escape(p);
      && (r == [] || r[0] != '"')
      && (forall i | 0 <= i < |r| && r[i] == '"' :: i > 0 && r[i - 1] == '\\')
      && (p != [] && p[|p| - 1] != '\\' ==> r != [] && r[|r| - 1] != '\\')
  {
    if p != [] {
      var head: string := if p[0] == '"' then ['\\', '"'] else [p[0]];
      var rest := Escape(p[1..]);
      EscapeFacts(p[1..]);
      var r := head + rest;
      assert forall i | |head| <= i < |r| :: r[i] == rest[i - |head|];
    }
  }

  /** A path without double quotes is left as it is. */
  lemma {:induction false} EscapeWithoutQuotes(p: string)
    requires '"' !in p
    ensures Escape(p) == p
  {
    if p != [] {
      assert '"' !in p[1..] by { assert forall c | c in p[1..] :: c in p; }
      EscapeWithoutQuotes(p[1..]);
      assert [p[0]] + p[1..] == p;
    }
  }

  /** Reads escaped text from left to right: a `\"` pair stands for `"`, every other character
      for itself. */
  function Unescape(s: string): string {
    if s == [] then []
    else if |s| >= 2 && s[0] == '\\' && s[1] == '"' then ['"'] + Unescape(s[2..])
    else [s[0]] + Unescape(s[1..])
  }

  /** Unescaping undoes escaping, for every path. */
  lemma {:induction false} UnescapeEscape(p: string)
    ensures Unescape(Escape(p)) == p
  {
    if p != [] {
      var rest := Escape(p[1..]);
      UnescapeEscape(p[1..]);
      if p[0] == '"' {
        assert Escape(p) == ['\\', '"'] + rest;
        assert Escape(p)[2..] == rest;
      } else {
        assert Escape(p) == [p[0]] + rest;
        assert Escape(p)[1..] == rest;
      }
      assert [p[0]] + p[1..] == p;
    }
  }

  /** `"${p.replace(/"/g, '\\"')}"`: the path wrapped in double quotes; the inner part unescapes
      to the path. */
  function Quote(p: string): (r: string)
    ensures |r| >= 2 && r[0] == '"' && r[|r| - 1] == '"'
    ensures Unescape(r[1..|r| - 1]) == p
  {
    var inner := Escape(p);
    var r := ['"'] + inner + ['"'];
    assert r[1..|r| - 1] == inner;
    UnescapeEscape(p);
    r
  }

  /** Inside the quotes every double quote is preceded by a backslash, so none of them ends the
      word. */
  lemma QuoteEscapesInnerQuotes(p: string)
    ensures var r := Quote(p);
      forall i | 1 <= i < |r| - 1 && r[i] == '"' :: r[i - 1] == '\\'
  {
    var inner := Escape(p);
    EscapeFacts(p);
    var r := ['"'] + inner + ['"'];
    assert forall i | 1 <= i < |r| - 1 :: r[i] == inner[i - 1];
  }

  /** `files.map(quote).join(' ')` */
  function JoinQuoted(files: seq<string>): string {
    if files == [] then []
    else if |files| == 1 then Quote(files[0])
    else Quote(files[0]) + " " + JoinQuoted(files[1..])
  }

  /** Reads one quoted word from the text after its opening `"`: a `\"` pair is a quote inside
      the word and an unpaired `"` closes it. Gives the word and what follows the closing quote,
      or nothing when the word is never closed. */
  function ReadWord(s: string): (r: Option<(string, string)>)
    ensures r.Some? ==> |r.value.1| < |s|
  {
    if s == [] then None
    else if s[0] == '"' then Some(([], s[1..]))
    else if |s| >= 2 && s[0] == '\\' && s[1] == '"' then
      match ReadWord(s[2..])
      case None => None
      case Some((w, rest)) => Some((['"'] + w, rest))
    else
      match ReadWord(s[1..])
      case None => None
      case Some((w, rest)) => Some(([s[0]] + w, rest))
  }

  /** Reads a non-empty list of quoted words separated by single spaces. */
  function ParseArgs(s: string): Option<seq<string>>
    decreases |s|
  {
    if s == [] || s[0] != '"' then None
    else
      match ReadWord(s[1..])
      case None => None
      case Some((w, rest)) =>
        if rest == [] then Some([w])
        else if rest[0] != ' ' then None
        else
          match ParseArgs(rest[1..])
          case None => None
          case Some(ws) => Some([w] + ws)
  }

  predicate EndsWithBackslash(p: string) {
    |p| > 0 && p[|p| - 1] == '\\'
  }

  /** An escaped path followed by the closing quote reads back as the path, unless the path ends
      in a backslash (that backslash would pair with the closing quote). */
  lemma {:induction false} ReadWordOfEscape(p: string, tail: string)
    requires !EndsWithBackslash(p)
    ensures ReadWord(Escape(p) + "\"" + tail) == Some((p, tail))
  {
    var s := Escape(p) + "\"" + tail;
    if p == [] {
      assert s == "\"" + tail;
      assert s[1..] == tail;
    } else {
      var head: string := if p[0] == '"' then ['\\', '"'] else [p[0]];
      var rest := Escape(p[1..]);
      var u := rest + "\"" + tail;
      assert s == head + u;
      assert !EndsWithBackslash(p[1..]);
      ReadWordOfEscape(p[1..], tail);
      assert [p[0]] + p[1..] == p;
      if p[0] == '"' {
        assert s[2..] == u;
      } else {
        assert s[1..] == u;
        if p[0] == '\\' {
          EscapeFacts(p[1..]);
          assert s[1] == u[0] == rest[0] != '"';
        }
      }
    }
  }

  /** The quoted list reads back as the files, one word per file, in order, when no file ends in
      a backslash. */
  lemma {:induction false} ParseJoinQuoted(files: seq<string>)
    requires |files| > 0
    requires forall k | 0 <= k < |files| :: !EndsWithBackslash(files[k])
    ensures ParseArgs(JoinQuoted(files)) == Some(files)
  {
    var f := files[0];
    var s := JoinQuoted(files);
    var tail := if |files| == 1 then "" else " " + JoinQuoted(files[1..]);
    JoinQuotedHead(files);
    ReadWordOfEscape(f, tail);
    if |files| == 1 {
      ParseArgsLast(s, f);
      assert files == [f];
    } else {
      ParseJoinQuoted(files[1..]);
      ParseArgsMore(s, f, tail, files[1..]);
      assert [f] + files[1..] == files;
    }
  }

  lemma JoinQuotedHead(files: seq<string>)
    requires |files| > 0
    ensures var s := JoinQuoted(files);
      var tail := if |files| == 1 then "" else " " + JoinQuoted(files[1..]);
      |s| > 0 && s[0] == '"' && s[1..] == Escape(files[0]) + "\"" + tail
            && (|files| > 1 ==> tail[0] == ' ' && tail[1..] == JoinQuoted(files[1..]))
  {
    var tail := if |files| == 1 then "" else " " + JoinQuoted(files[1..]);
    JoinQuotedFirst(files);
    QuoteParts(files[0]);
    QuotedThenTail(Escape(files[0]), tail);
  }

  lemma JoinQuotedFirst(files: seq<string>)
    requires |files| > 0
    ensures JoinQuoted(files) == Quote(files[0]) + (if |files| == 1 then "" else " " + JoinQuoted(files[1..]))
    ensures |files| > 1 ==> (" " + JoinQuoted(files[1..]))[1..] == JoinQuoted(files[1..])
  {
    if |files| > 1 {
      assert Quote(files[0]) + " " + JoinQuoted(files[1..]) == Quote(files[0]) + (" " + JoinQuoted(files[1..]));
    }
  }

  lemma QuoteParts(p: string)
    ensures Quote(p) == ['"'] + Escape(p) + ['"']
  {
  }

  lemma QuotedThenTail(e: string, tail: string)
    ensures var s := ['"'] + e + ['"'] + tail;
      s[0] == '"' && s[1..] == e + "\"" + tail
  {
  }

  lemma ParseArgsLast(s: string, w: string)
    requires |s| > 0 && s[0] == '"' && ReadWord(s[1..]) == Some((w, []))
    ensures ParseArgs(s) == Some([w])
  {
  }

  lemma ParseArgsMore(s: string, w: string, tail: string, ws: seq<string>)
    requires |s| > 0 && s[0] == '"' && ReadWord(s[1..]) == Some((w, tail))
    requires |tail| > 0 && tail[0] == ' ' && ParseArgs(tail[1..]) == Some(ws)
    ensures ParseArgs(s) == Some([w] + ws)
  {
  }

  /** The condition is needed: a path ending in a backslash does not read back. */
  lemma TrailingBackslashBreaksReading()
    ensures ParseArgs(JoinQuoted(["a\\"])) != Some(["a\\"])
  {
    var s := JoinQuoted(["a\\"]);
    assert Escape("a\\") == "a\\" by {
      assert Escape("\\") == "\\";
    }
    assert s == "\"a\\\"";
    assert s[1..] == "a\\\"";
    assert s[1..][1..] == "\\\"";
    assert s[1..][1..][2..] == [];
    assert ReadWord(s[1..][1..]) == None;
  }
}
