/** Append-only text files with one record per line. */
module Lines {
  /** The pieces between line feeds; always at least one, the last possibly empty. */
  function Split(s: string): (r: seq<string>)
    ensures |r| > 0
  {
    if s == "" then [""]
    else
      var rest := Split(s[1..]);
      if s[0] == '\n' then [""] + rest else [[s[0]] + rest[0]] + rest[1..]
  }

  function Join(ps: seq<string>): string
    requires |ps| > 0
  {
    if |ps| == 1 then ps[0] else ps[0] + "\n" + Join(ps[1..])
  }

  /** Splitting loses nothing: the pieces hold no line feed and, joined by line feeds, give the text back. */
  lemma {:induction false} SplitIs(s: string)
    ensures Join(Split(s)) == s
    ensures forall i :: 0 <= i < |Split(s)| ==> '\n' !in Split(s)[i]
  {
    if s != "" {
      SplitIs(s[1..]);
      var rest := Split(s[1..]);
      if s[0] == '\n' {
        assert ([""] + rest)[1..] == rest;
        assert "" + "\n" + s[1..] == s;
      } else {
        var head := [[s[0]] + rest[0]];
        assert (head + rest[1..])[1..] == rest[1..];
        if |rest| > 1 {
          assert [s[0]] + rest[0] + "\n" + Join(rest[1..]) == [s[0]] + (rest[0] + "\n" + Join(rest[1..]));
        }
        assert [s[0]] + s[1..] == s;
      }
    }
  }

  function Last(ps: seq<string>): string
    requires |ps| > 0
  {
    ps[|ps| - 1]
  }

  function Front(ps: seq<string>): seq<string>
    requires |ps| > 0
  {
    ps[..|ps| - 1]
  }

  /** The pieces of a concatenation: the last piece of one side and the first of the other become one. */
  function Glue(ps: seq<string>, qs: seq<string>): (r: seq<string>)
    requires |ps| > 0 && |qs| > 0
    ensures |r| == |ps| + |qs| - 1
  {
    Front(ps) + [Last(ps) + qs[0]] + qs[1..]
  }

  lemma GlueCons(ps: seq<string>, qs: seq<string>)
    requires |ps| > 0 && |qs| > 0
    ensures Glue([""] + ps, qs) == [""] + Glue(ps, qs)
  {
    assert Front([""] + ps) == [""] + Front(ps);
  }

  lemma GlueHead(c: char, ps: seq<string>, qs: seq<string>)
    requires |ps| > 0 && |qs| > 0
    ensures Glue([[c] + ps[0]] + ps[1..], qs) == [[c] + Glue(ps, qs)[0]] + Glue(ps, qs)[1..]
  {
    if |ps| == 1 {
      assert ([c] + ps[0]) + qs[0] == [c] + (ps[0] + qs[0]);
    }
  }

  lemma {:induction false} SplitConcat(a: string, b: string)
    ensures Split(a + b) == Glue(Split(a), Split(b))
  {
    if a == "" {
      assert a + b == b;
      assert "" + Split(b)[0] == Split(b)[0];
    } else {
      SplitConcat(a[1..], b);
      assert (a + b)[1..] == a[1..] + b;
      if a[0] == '\n' {
        GlueCons(Split(a[1..]), Split(b));
      } else {
        GlueHead(a[0], Split(a[1..]), Split(b));
      }
    }
  }

  lemma {:induction false} SplitLine(l: string)
    requires '\n' !in l
    ensures Split(l) == [l]
  {
    if l != "" {
      assert l[0] in l;
      forall c | c in l[1..] ensures c in l {}
      SplitLine(l[1..]);
      assert [l[0]] + l[1..] == l;
    }
  }

  /** Appending a line to a file adds exactly one piece, glued to whatever unfinished line was there. */
  lemma SplitAppend(file: string, l: string)
    requires '\n' !in l
    ensures Split(file + l + "\n") == Front(Split(file)) + [Last(Split(file)) + l, ""]
  {
    SplitLine(l);
    SplitConcat(l, "\n");
    assert Split("\n") == ["", ""] by {
      assert Split("") == [""];
    }
    assert l + "" == l;
    assert Split(l + "\n") == [l, ""];
    SplitConcat(file, l + "\n");
    assert file + l + "\n" == file + (l + "\n");
  }

  /** A file that is empty or ends with a line feed. */
  predicate Complete(file: string) {
    Last(Split(file)) == ""
  }

  /** On a complete file the appended line stands alone. */
  lemma CompleteAppend(file: string, l: string)
    requires Complete(file) && '\n' !in l
    ensures Split(file) == Front(Split(file)) + [""]
    ensures Split(file + l + "\n") == Front(Split(file)) + [l] + [""]
    ensures Complete(file + l + "\n")
  {
    SplitAppend(file, l);
    assert "" + l == l;
  }
}
