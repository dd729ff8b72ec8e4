/** Strings over Dafny `char`s. The renderers build their output with
    `String::repeat` (`Repeat`) and `join` (`Join`), and cells laid side by
    side (`Tile`); `str::lines`, `matches(..).count()` and `chars().count()`
    (`Lines`, `Occurrences`, `Count`, `|s|`) are what properties of the output
    are stated with. A Dafny `char` is a Unicode scalar value, so `|s|` is what
    Rust's `s.chars().count()` returns. */
module Text {

  /** Number of times `ch` occurs in `s`: what `s.matches(ch).count()`
      returns for a one-character pattern. */
  function Count(s: string, ch: char): nat
  {
    if s == [] then 0 else (if s[0] == ch then 1 else 0) + Count(s[1..], ch)
  }

  lemma {:induction false} CountConcat(a: string, b: string, ch: char)
    ensures Count(a + b, ch) == Count(a, ch) + Count(b, ch)
  {
    if a == [] {
      assert a + b == b;
    } else {
      assert (a + b)[1..] == a[1..] + b;
      CountConcat(a[1..], b, ch);
    }
  }

  /** A character is counted zero times exactly when it does not occur. */
  lemma {:induction false} CountZero(s: string, ch: char)
    ensures Count(s, ch) == 0 <==> ch !in s
  {
    if s != [] {
      CountZero(s[1..], ch);
      assert s == [s[0]] + s[1..];
    }
  }

  /** `s` repeated `n` times (Rust's `str::repeat`). */
  function Repeat(s: string, n: nat): string
  {
    if n == 0 then "" else s + Repeat(s, n - 1)
  }

  lemma {:induction false} RepeatLength(s: string, n: nat)
    ensures |Repeat(s, n)| == |s| * n
  {
    if n > 0 {
      RepeatLength(s, n - 1);
    }
  }

  /** `n` blanks. */
  function Spaces(n: nat): string
  {
    Repeat(" ", n)
  }

  /** Rows joined by a separator (Rust's `[String]::join`). */
  function Join(rows: seq<string>, sep: string): string
  {
    if |rows| == 0 then ""
    else if |rows| == 1 then rows[0]
    else rows[0] + sep + Join(rows[1..], sep)
  }

  /** Index of the first `ch` in `s`. */
  function IndexOf(s: string, ch: char): (k: nat)
    requires ch in s
    ensures k < |s| && s[k] == ch && ch !in s[..k]
  {
    if s[0] == ch then 0
    else
      assert ch in s[1..] by { assert s == [s[0]] + s[1..]; }
      var k := 1 + IndexOf(s[1..], ch);
      assert s[..k] == [s[0]] + s[1..][..k - 1];
      k
  }

  /** A line without its trailing carriage return. */
  function StripCR(line: string): string
  {
    if line != [] && line[|line| - 1] == '\r' then line[..|line| - 1] else line
  }

  /** Rust's `str::lines`: the text split at each `\n` (a `\r` just before
      it is dropped); a final line ending adds no empty line. */
  function Lines(s: string): seq<string>
    decreases |s|
  {
    if s == [] then []
    else if '\n' in s then
      var k := IndexOf(s, '\n');
      [StripCR(s[..k])] + Lines(s[k + 1..])
    else [s]
  }

  /** Joining rows with `\n` and reading them back with `lines()` gives the
      same rows, provided no row holds a line ending and the last is not
      empty. */
  lemma {:induction false} LinesJoin(rows: seq<string>)
    requires rows != [] && rows[|rows| - 1] != ""
    requires forall i :: 0 <= i < |rows| ==> '\n' !in rows[i] && '\r' !in rows[i]
    ensures Lines(Join(rows, "\n")) == rows
  {
    if |rows| > 1 {
      var a, rest := rows[0], Join(rows[1..], "\n");
      assert Join(rows, "\n") == a + "\n" + rest;
      FirstLine(a, rest);
      LinesJoin(rows[1..]);
    }
  }

  /** The first line of `a + "\n" + rest` is `a`, when `a` holds no line
      ending. */
  lemma FirstLine(a: string, rest: string)
    requires '\n' !in a && '\r' !in a
    ensures Lines(a + "\n" + rest) == [a] + Lines(rest)
  {
    var s := a + "\n" + rest;
    assert s[|a|] == '\n';
    var k := IndexOf(s, '\n');
    assert s[..k] == a;
    assert a != [] ==> a[|a| - 1] in a;
    assert s[k + 1..] == rest;
  }

  /** Non-overlapping occurrences of `w` in `s`, scanning left to right: what
      Rust's `s.matches(w).count()` returns. */
  function Occurrences(s: string, w: string): nat
    requires w != []
    decreases |s|
  {
    if |s| < |w| then 0
    else if s[..|w|] == w then 1 + Occurrences(s[|w|..], w)
    else Occurrences(s[1..], w)
  }

  lemma {:induction false} OccurrencesShort(s: string, w: string)
    requires w != [] && |s| < |w|
    ensures Occurrences(s, w) == 0
  {
  }

  /** An occurrence cannot straddle a separator that `w` does not contain. */
  lemma {:induction false} OccurrencesSplit(a: string, sep: char, b: string, w: string)
    requires w != [] && sep !in w
    ensures Occurrences(a + [sep] + b, w) == Occurrences(a, w) + Occurrences(b, w)
    decreases |a|
  {
    var s := a + [sep] + b;
    if |s| < |w| {
      assert |a| < |w| && |b| < |w|;
    } else if s[..|w|] == w {
      if |a| < |w| {
        NoStraddle(a, sep, b, w);
      }
      assert a[..|w|] == w;
      assert s[|w|..] == a[|w|..] + [sep] + b;
      OccurrencesSplit(a[|w|..], sep, b, w);
    } else if a == [] {
      assert s[1..] == b;
    } else {
      assert s[1..] == a[1..] + [sep] + b;
      OccurrencesSplit(a[1..], sep, b, w);
      if |a| >= |w| {
        assert a[..|w|] == s[..|w|];
      }
    }
  }

  lemma NoStraddle(a: string, sep: char, b: string, w: string)
    requires sep !in w && |a| < |w| <= |a| + 1 + |b|
    ensures (a + [sep] + b)[..|w|] != w
  {
    assert (a + [sep] + b)[..|w|][|a|] == sep;
  }

  /** Total number of `ch` over all rows. */
  function CountAll(rows: seq<string>, ch: char): nat
  {
    if rows == [] then 0 else Count(rows[0], ch) + CountAll(rows[1..], ch)
  }

  lemma {:induction false} CountAllConcat(a: seq<string>, b: seq<string>, ch: char)
    ensures CountAll(a + b, ch) == CountAll(a, ch) + CountAll(b, ch)
  {
    if a == [] {
      assert a + b == b;
    } else {
      assert (a + b)[1..] == a[1..] + b;
      CountAllConcat(a[1..], b, ch);
    }
  }

  /** Counting a character other than the line break in joined rows is
      counting it row by row. */
  lemma {:induction false} CountJoin(rows: seq<string>, ch: char)
    requires ch != '\n'
    ensures Count(Join(rows, "\n"), ch) == CountAll(rows, ch)
  {
    if |rows| > 1 {
      var rest := Join(rows[1..], "\n");
      CountConcat(rows[0] + "\n", rest, ch);
      CountConcat(rows[0], "\n", ch);
      CountJoin(rows[1..], ch);
    } else if |rows| == 1 {
      assert rows[1..] == [];
    }
  }

  /** Total number of occurrences of `w` over all rows. */
  function OccurrencesAll(rows: seq<string>, w: string): nat
    requires w != []
  {
    if rows == [] then 0 else Occurrences(rows[0], w) + OccurrencesAll(rows[1..], w)
  }

  lemma {:induction false} OccurrencesJoin(rows: seq<string>, w: string)
    requires w != [] && '\n' !in w
    ensures Occurrences(Join(rows, "\n"), w) == OccurrencesAll(rows, w)
  {
    if |rows| > 1 {
      assert Join(rows, "\n") == rows[0] + ['\n'] + Join(rows[1..], "\n");
      OccurrencesSplit(rows[0], '\n', Join(rows[1..], "\n"), w);
      OccurrencesJoin(rows[1..], w);
    } else if |rows| == 1 {
      assert rows[1..] == [];
    }
  }

  /** Cells laid side by side, left to right, with no separator. */
  function Tile<T>(xs: seq<T>, cell: T -> string): string
  {
    if xs == [] then "" else Tile(xs[..|xs| - 1], cell) + cell(xs[|xs| - 1])
  }

  lemma {:induction false} TileWidth<T>(xs: seq<T>, cell: T -> string, w: nat)
    requires forall x :: |cell(x)| == w
    ensures |Tile(xs, cell)| == w * |xs|
  {
    if xs != [] {
      var init := xs[..|xs| - 1];
      TileWidth(init, cell, w);
      assert |Tile(xs, cell)| == |Tile(init, cell)| + |cell(xs[|xs| - 1])|;
      assert w * |xs| == w * |init| + w;
    }
  }

  /** The `i`-th cell of a tiling of equally wide cells is the `i`-th
      element's cell. */
  lemma {:induction false} TileCell<T>(xs: seq<T>, cell: T -> string, w: nat, i: nat)
    requires forall x :: |cell(x)| == w
    requires i < |xs|
    ensures |Tile(xs, cell)| == w * |xs|
    ensures w * i + w <= w * |xs|
    ensures Tile(xs, cell)[w * i .. w * i + w] == cell(xs[i])
  {
    TileWidth(xs, cell, w);
    MulSplit(w, |xs|, i);
    var init := xs[..|xs| - 1];
    var a, b := Tile(init, cell), cell(xs[|xs| - 1]);
    assert Tile(xs, cell) == a + b;
    TileWidth(init, cell, w);
    var lo := w * i;
    if i < |init| {
      MulSplit(w, |init|, i);
      TileCell(init, cell, w, i);
      assert init[i] == xs[i];
      SliceLeft(a, b, lo, w);
    } else {
      assert i == |init| && lo == |a|;
      assert (a + b)[|a| .. |a| + w] == b;
    }
  }

  lemma SliceLeft(a: string, b: string, lo: nat, w: nat)
    requires lo + w <= |a|
    ensures (a + b)[lo .. lo + w] == a[lo .. lo + w]
  {
  }

  lemma MulSplit(w: nat, n: nat, i: nat)
    requires i < n
    ensures w * i + w <= w * n
  {
    assert w * n == w * i + w * (n - i);
    assert w * (n - i) == w + w * (n - i - 1);
  }

  lemma {:induction false} TileAvoids<T>(xs: seq<T>, cell: T -> string, ch: char)
    requires forall x :: ch !in cell(x)
    ensures ch !in Tile(xs, cell)
  {
    if xs != [] {
      TileAvoids(xs[..|xs| - 1], cell, ch);
    }
  }

  /** `n` copies of a string, tiled over any `n` elements. */
  lemma {:induction false} RepeatTile<T>(xs: seq<T>, cell: T -> string, s: string)
    requires forall x :: cell(x) == s
    ensures Repeat(s, |xs|) == Tile(xs, cell)
  {
    if xs != [] {
      RepeatTile(xs[..|xs| - 1], cell, s);
      RepeatSnoc(s, |xs| - 1);
    }
  }

  lemma {:induction false} RepeatSnoc(s: string, n: nat)
    ensures Repeat(s, n + 1) == Repeat(s, n) + s
  {
    if n > 0 {
      RepeatSnoc(s, n - 1);
    }
  }

  /** `w` repeated `n` times holds exactly `n` occurrences of `w`. */
  lemma {:induction false} OccurrencesRepeat(w: string, n: nat)
    requires w != []
    ensures Occurrences(Repeat(w, n), w) == n
  {
    if n > 0 {
      var r := Repeat(w, n);
      assert r[..|w|] == w;
      assert r[|w|..] == Repeat(w, n - 1);
      OccurrencesRepeat(w, n - 1);
    }
  }

  /** A string lacking the first character of `w` holds no occurrence of it. */
  lemma {:induction false} OccurrencesAbsent(s: string, w: string)
    requires w != [] && w[0] !in s
    ensures Occurrences(s, w) == 0
    decreases |s|
  {
    if |s| >= |w| {
      assert s[..|w|][0] == s[0];
      assert s[0] in s;
      assert forall c :: c in s[1..] ==> c in s;
      OccurrencesAbsent(s[1..], w);
    }
  }

  /** Rows none of which holds `ch` hold no `ch` together. */
  lemma {:induction false} CountAllAbsent(rows: seq<string>, ch: char)
    requires forall k :: 0 <= k < |rows| ==> ch !in rows[k]
    ensures CountAll(rows, ch) == 0
  {
    if rows != [] {
      CountZero(rows[0], ch);
      CountAllAbsent(rows[1..], ch);
    }
  }

  lemma {:induction false} OccurrencesAllConcat(a: seq<string>, b: seq<string>, w: string)
    requires w != []
    ensures OccurrencesAll(a + b, w) == OccurrencesAll(a, w) + OccurrencesAll(b, w)
  {
    if a == [] {
      assert a + b == b;
    } else {
      assert (a + b)[1..] == a[1..] + b;
      OccurrencesAllConcat(a[1..], b, w);
    }
  }

  /** Rows none of which holds the first character of `w` hold no
      occurrence of it. */
  lemma {:induction false} OccurrencesAllAbsent(rows: seq<string>, w: string)
    requires w != [] && forall k :: 0 <= k < |rows| ==> w[0] !in rows[k]
    ensures OccurrencesAll(rows, w) == 0
  {
    if rows != [] {
      OccurrencesAbsent(rows[0], w);
      OccurrencesAllAbsent(rows[1..], w);
    }
  }

  lemma TileOne<T>(x: T, cell: T -> string)
    ensures Tile([x], cell) == cell(x)
  {
    assert [x][..0] == [];
  }

  lemma TileSnoc<T>(xs: seq<T>, x: T, cell: T -> string)
    ensures Tile(xs + [x], cell) == Tile(xs, cell) + cell(x)
  {
    assert (xs + [x])[..|xs|] == xs;
  }

  /** One more element of a prefix adds its cell. */
  lemma TilePrefixStep<T>(xs: seq<T>, i: nat, cell: T -> string)
    requires i < |xs|
    ensures Tile(xs[..i + 1], cell) == Tile(xs[..i], cell) + cell(xs[i])
  {
    assert xs[..i + 1][..i] == xs[..i];
  }

  /** Appending to a string that already ends in a tiled prefix extends the
      tiling by one cell. */
  lemma AppendCell<T>(head: string, xs: seq<T>, i: nat, cell: T -> string)
    requires i < |xs|
    ensures head + Tile(xs[..i + 1], cell) == (head + Tile(xs[..i], cell)) + cell(xs[i])
  {
    TilePrefixStep(xs, i, cell);
  }

  /** No occurrence starts in a prefix that does not hold `w`'s first
      character. */
  lemma {:induction false} OccurrencesSkip(s: string, w: string, k: nat)
    requires w != [] && k <= |s| && w[0] !in s[..k]
    ensures Occurrences(s, w) == Occurrences(s[k..], w)
    decreases k
  {
    if k > 0 {
      if |s| < |w| {
        OccurrencesShort(s[k..], w);
      } else {
        assert s[..|w|][0] == s[0] == s[..k][0];
        assert s[1..][..k - 1] == s[..k][1..] && s[1..][k - 1..] == s[k..];
        OccurrencesSkip(s[1..], w, k - 1);
      }
    }
  }
}
