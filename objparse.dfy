/**
 * The whitespace tokenizer `split` and the per-line rule of `parse_mtl`
 * (obj_parse.c, obj_parse.h).
 *
 * `split` breaks a NUL-terminated line at the space character only: runs of
 * spaces separate like one space, leading spaces produce nothing, and
 * spaces at the end of the line produce one final empty token. Tabs and
 * line feeds are ordinary characters. A line is modelled as the characters
 * before its terminating NUL.
 */
module ObjParse {
  import opened Vectors

  /** `MAX_NUM_SUBSTR`: the rows of the token array. */
  const MaxNumSubstr := 16
  /** `MAX_LEN_SUBSTR`: the bytes of one token, its NUL included. */
  const MaxLenSubstr := 128
  /** `MAX_LEN_MTL_ID`: the bytes of a material id, its NUL included. */
  const MaxLenMtlId := 64
  /** `MAX_LEN_LINE`: the buffer `fgets` reads one line into, its NUL included. */
  const MaxLenLine := 512

  /** The first position at or after i that does not hold a space: the skip loop of `split`. */
  function SkipEnd(line: string, i: nat): (j: nat)
    requires i <= |line|
    ensures i <= j <= |line|
    decreases |line| - i
  {
    if i < |line| && line[i] == ' ' then SkipEnd(line, i + 1) else i
  }

  /** The first position at or after i that holds a space, or the end: the copy loop of `split`. */
  function WordEnd(line: string, i: nat): (j: nat)
    requires i <= |line|
    ensures i <= j <= |line|
    decreases |line| - i
  {
    if i < |line| && line[i] != ' ' then WordEnd(line, i + 1) else i
  }

  /** Where one round of the outer loop of `split` started at i stops; it always moves. */
  function TokenEnd(line: string, i: nat): (j: nat)
    requires i < |line|
    ensures i < j <= |line|
  {
    WordEnd(line, SkipEnd(line, i))
  }

  /** The tokens of the line from position i on, in order. */
  function TokensFrom(line: string, i: nat): seq<string>
    requires i <= |line|
    decreases |line| - i
  {
    if i == |line| then []
    else [line[SkipEnd(line, i)..TokenEnd(line, i)]] + TokensFrom(line, TokenEnd(line, i))
  }

  /** The tokens `split` writes for a line, in order. */
  function Tokens(line: string): seq<string>
  {
    TokensFrom(line, 0)
  }

  /** The caller's duty: at most 16 tokens, each shorter than 128 bytes, and no NUL inside the line. */
  predicate SplitFits(line: string)
  {
    '\0' !in line
    && |Tokens(line)| <= MaxNumSubstr
    && forall t :: t in Tokens(line) ==> |t| < MaxLenSubstr
  }

  /**
   * `split`: writes the tokens of `line` into the first rows of `out` and
   * returns their number; the other rows keep what they held.
   */
  method Split(line: string, out: array<string>) returns (n: int)
    requires out.Length == MaxNumSubstr && SplitFits(line)
    modifies out
    ensures n == |Tokens(line)| && out[..n] == Tokens(line)
    ensures forall m :: n <= m < out.Length ==> out[m] == old(out[m])
  {
    var i, k := 0, 0;
    var ss := new char[MaxLenSubstr];
    while i < |line|
      invariant 0 <= i <= |line| && 0 <= k <= out.Length
      invariant out[..k] + TokensFrom(line, i) == Tokens(line)
      invariant forall m :: k <= m < out.Length ==> out[m] == old(out[m])
      decreases |line| - i
    {
      ghost var done := out[..k];
      SplitStep(line, i, done);
      var token;
      i, token := ReadToken(line, i, ss);
      out[k] := token;
      assert out[..k + 1] == done + [token];
      k := k + 1;
    }
    n := k;
  }

  /**
   * The body of the outer loop of `split`: skips the spaces from i, copies
   * the following word into the scratch buffer `ss` and returns it with the
   * position after it.
   */
  method ReadToken(line: string, i: nat, ss: array<char>) returns (next: nat, token: string)
    requires i < |line| && ss.Length == MaxLenSubstr
    requires TokenEnd(line, i) - SkipEnd(line, i) < MaxLenSubstr
    modifies ss
    ensures next == TokenEnd(line, i) && token == line[SkipEnd(line, i)..next]
  {
    next := i;
    while next < |line| && line[next] == ' '
      invariant i <= next <= |line| && SkipEnd(line, i) == SkipEnd(line, next)
    {
      next := next + 1;
    }
    var start := next;
    var j := 0;
    while next < |line| && line[next] != ' '
      invariant start <= next <= TokenEnd(line, i) && j == next - start
      invariant WordEnd(line, next) == TokenEnd(line, i)
      invariant ss[..j] == line[start..next]
    {
      ss[j] := line[next];
      j := j + 1;
      next := next + 1;
    }
    ss[j] := '\0';
    token := ss[..j];
  }

  /**
   * What one round of the outer loop of `split` relies on: there is room
   * for another row, the next word fits the scratch buffer, and the rows
   * written so far followed by that word still begin the token list.
   */
  lemma SplitStep(line: string, i: nat, done: seq<string>)
    requires SplitFits(line) && i < |line|
    requires done + TokensFrom(line, i) == Tokens(line)
    ensures |done| < MaxNumSubstr
    ensures TokenEnd(line, i) - SkipEnd(line, i) < MaxLenSubstr
    ensures (done + [line[SkipEnd(line, i)..TokenEnd(line, i)]]) + TokensFrom(line, TokenEnd(line, i)) == Tokens(line)
  {
    TokensFromStep(line, i);
    var t := line[SkipEnd(line, i)..TokenEnd(line, i)];
    assert Tokens(line)[|done|] == t;
    assert t in Tokens(line);
    assert (done + [t]) + TokensFrom(line, TokenEnd(line, i)) == done + TokensFrom(line, i);
  }

  /** One round of the outer loop of `split`: the token between the skipped spaces and the next space. */
  lemma TokensFromStep(line: string, i: nat)
    requires i < |line|
    ensures TokensFrom(line, i) == [line[SkipEnd(line, i)..TokenEnd(line, i)]] + TokensFrom(line, TokenEnd(line, i))
  {
  }

  /** SkipEnd stops at the first position past i that is not a space. */
  lemma {:induction false} SkipEndFacts(line: string, i: nat)
    requires i <= |line|
    ensures forall k :: i <= k < SkipEnd(line, i) ==> line[k] == ' '
    ensures SkipEnd(line, i) == |line| || line[SkipEnd(line, i)] != ' '
    decreases |line| - i
  {
    if i < |line| && line[i] == ' ' {
      SkipEndFacts(line, i + 1);
    }
  }

  /** WordEnd stops at the first space past i. */
  lemma {:induction false} WordEndFacts(line: string, i: nat)
    requires i <= |line|
    ensures forall k :: i <= k < WordEnd(line, i) ==> line[k] != ' '
    ensures WordEnd(line, i) == |line| || line[WordEnd(line, i)] == ' '
    decreases |line| - i
  {
    if i < |line| && line[i] != ' ' {
      WordEndFacts(line, i + 1);
    }
  }

  /** Spaces from i up to j are skipped as one run. */
  lemma {:induction false} SkipEndRun(line: string, i: nat, j: nat)
    requires i <= j <= |line|
    requires forall k :: i <= k < j ==> line[k] == ' '
    ensures SkipEnd(line, i) == SkipEnd(line, j)
    decreases j - i
  {
    if i < j {
      SkipEndRun(line, i + 1, j);
    }
  }

  /** Non-spaces from i up to a space or the end at j make one word. */
  lemma {:induction false} WordEndRun(line: string, i: nat, j: nat)
    requires i <= j <= |line| && (j == |line| || line[j] == ' ')
    requires forall k :: i <= k < j ==> line[k] != ' '
    ensures WordEnd(line, i) == j
    decreases j - i
  {
    if i < j {
      WordEndRun(line, i + 1, j);
    }
  }

  /** Spaces before a position that is not the end produce no token of their own. */
  lemma TokensFromSkip(line: string, i: nat, j: nat)
    requires i <= j < |line|
    requires forall k :: i <= k < j ==> line[k] == ' '
    ensures TokensFrom(line, i) == TokensFrom(line, j)
  {
    SkipEndRun(line, i, j);
  }

  /** The tokens from a position depend only on the text from there on. */
  lemma {:induction false} TokensShift(p: string, s: string, i: nat)
    requires i <= |s|
    ensures TokensFrom(p + s, |p| + i) == TokensFrom(s, i)
    decreases |s| - i
  {
    if i < |s| {
      SkipEndShift(p, s, i);
      var a := SkipEnd(s, i);
      WordEndShift(p, s, a);
      var b := WordEnd(s, a);
      var line := p + s;
      assert |p| + i < |line|;
      assert TokenEnd(line, |p| + i) == |p| + b;
      assert line[|p| + a..|p| + b] == s[a..b];
      TokensShift(p, s, b);
      assert TokensFrom(line, |p| + i) == [line[|p| + a..|p| + b]] + TokensFrom(line, |p| + b);
    }
  }

  /** SkipEnd on p + s at |p| + i is |p| past SkipEnd on s at i. */
  lemma {:induction false} SkipEndShift(p: string, s: string, i: nat)
    requires i <= |s|
    ensures SkipEnd(p + s, |p| + i) == |p| + SkipEnd(s, i)
    decreases |s| - i
  {
    if i < |s| {
      assert (p + s)[|p| + i] == s[i];
      SkipEndShift(p, s, i + 1);
    }
  }

  /** WordEnd on p + s at |p| + i is |p| past WordEnd on s at i. */
  lemma {:induction false} WordEndShift(p: string, s: string, i: nat)
    requires i <= |s|
    ensures WordEnd(p + s, |p| + i) == |p| + WordEnd(s, i)
    decreases |s| - i
  {
    if i < |s| {
      assert (p + s)[|p| + i] == s[i];
      WordEndShift(p, s, i + 1);
    }
  }

  /** An empty line has no tokens, and every other line has at least one. */
  lemma TokensEmpty(s: string)
    ensures Tokens(s) == [] <==> s == []
  {
  }

  /** No token contains a space: the space is the only separator. */
  lemma NoSpaceInTokens(line: string)
    ensures forall t :: t in Tokens(line) ==> ' ' !in t
  {
    NoSpaceFrom(line, 0);
  }

  /** No token from position i on contains a space. */
  lemma {:induction false} NoSpaceFrom(line: string, i: nat)
    requires i <= |line|
    ensures forall t :: t in TokensFrom(line, i) ==> ' ' !in t
    decreases |line| - i
  {
    if i < |line| {
      var a := SkipEnd(line, i);
      WordEndFacts(line, a);
      var b := WordEnd(line, a);
      assert ' ' !in line[a..b] by {
        forall k | 0 <= k < b - a
          ensures line[a..b][k] != ' '
        {
          assert line[a..b][k] == line[a + k];
        }
      }
      NoSpaceFrom(line, b);
    }
  }

  /** A line of spaces only gives exactly one empty token. */
  lemma OnlySpaces(s: string)
    requires s != [] && forall k :: 0 <= k < |s| ==> s[k] == ' '
    ensures Tokens(s) == [[]]
  {
    SkipEndRun(s, 0, |s|);
    TokensFromStep(s, 0);
    assert TokenEnd(s, 0) == |s|;
    assert s[|s|..|s|] == [];
  }

  /** Spaces in front of a non-empty line are skipped without producing a token. */
  lemma LeadingSpacesDropped(sp: string, s: string)
    requires forall k :: 0 <= k < |sp| ==> sp[k] == ' '
    requires s != []
    ensures Tokens(sp + s) == Tokens(s)
  {
    TokensFromSkip(sp + s, 0, |sp|);
    TokensShift(sp, s, 0);
  }

  /**
   * A word followed by a run of spaces and more text gives the word and
   * then the tokens of the text: a run of any length separates like one
   * space.
   */
  lemma WordThenSpaces(w: string, sp: string, s: string)
    requires w != [] && ' ' !in w
    requires sp != [] && forall k :: 0 <= k < |sp| ==> sp[k] == ' '
    requires s != []
    ensures Tokens(w + sp + s) == [w] + Tokens(s)
  {
    var line := w + sp + s;
    assert line[0] == w[0];
    assert forall k :: 0 <= k < |w| ==> line[k] == w[k];
    WordEndRun(line, 0, |w|);
    assert line[0..|w|] == w;
    TokensFromSkip(line, |w|, |w| + |sp|);
    assert line == (w + sp) + s;
    TokensShift(w + sp, s, 0);
  }

  /** A run of spaces at the end of a line that does not already end in one adds exactly one final empty token. */
  lemma TrailingSpaces(s: string, sp: string)
    requires s == [] || s[|s| - 1] != ' '
    requires sp != [] && forall k :: 0 <= k < |sp| ==> sp[k] == ' '
    ensures Tokens(s + sp) == Tokens(s) + [[]]
  {
    TrailingSpacesFrom(s, sp, 0);
  }

  /** TrailingSpaces from position i on. */
  lemma {:induction false} TrailingSpacesFrom(s: string, sp: string, i: nat)
    requires s == [] || s[|s| - 1] != ' '
    requires sp != [] && forall k :: 0 <= k < |sp| ==> sp[k] == ' '
    requires i <= |s|
    ensures TokensFrom(s + sp, i) == TokensFrom(s, i) + [[]]
    decreases |s| - i
  {
    var line := s + sp;
    if i == |s| {
      TokensShift(s, sp, 0);
      OnlySpaces(sp);
    } else {
      SkipEndFacts(s, i);
      var a := SkipEnd(s, i);
      assert a < |s|;
      SkipEndAppend(s, sp, i);
      WordEndAppend(s, sp, a);
      var b := WordEnd(s, a);
      assert line[a..b] == s[a..b];
      TrailingSpacesFrom(s, sp, b);
    }
  }

  /** Text appended after a run of spaces that stops inside s leaves the run alone. */
  lemma {:induction false} SkipEndAppend(s: string, x: string, i: nat)
    requires i <= |s| && SkipEnd(s, i) < |s|
    ensures SkipEnd(s + x, i) == SkipEnd(s, i)
    decreases |s| - i
  {
    assert (s + x)[i] == s[i];
    if s[i] == ' ' {
      SkipEndAppend(s, x, i + 1);
    }
  }

  /** Text starting with a space, appended to s, ends a word where s would. */
  lemma {:induction false} WordEndAppend(s: string, x: string, i: nat)
    requires i <= |s| && x != [] && x[0] == ' '
    ensures WordEnd(s + x, i) == WordEnd(s, i)
    decreases |s| - i
  {
    assert (s + x)[i] == if i < |s| then s[i] else x[0];
    if i < |s| && s[i] != ' ' {
      WordEndAppend(s, x, i + 1);
    }
  }

  /** The tokens joined back with single spaces. */
  function Join(ts: seq<string>): string
  {
    if ts == [] then []
    else if |ts| == 1 then ts[0]
    else ts[0] + [' '] + Join(ts[1..])
  }

  /** A line with no leading, trailing or doubled space, and not empty. */
  predicate Clean(s: string)
  {
    s != [] && s[0] != ' ' && s[|s| - 1] != ' '
    && forall k :: 0 <= k < |s| - 1 ==> !(s[k] == ' ' && s[k + 1] == ' ')
  }

  /** For a clean line, joining the tokens with single spaces rebuilds the line. */
  lemma JoinRebuilds(s: string)
    requires Clean(s)
    ensures Join(Tokens(s)) == s
  {
    JoinRebuildsFrom(s, 0);
  }

  /** JoinRebuilds from a position i that starts a word. */
  lemma {:induction false} JoinRebuildsFrom(s: string, i: nat)
    requires Clean(s) && i < |s| && s[i] != ' '
    ensures Join(TokensFrom(s, i)) == s[i..]
    decreases |s| - i
  {
    WordEndFacts(s, i);
    var b := WordEnd(s, i);
    var w := s[i..b];
    assert TokensFrom(s, i) == [w] + TokensFrom(s, b);
    if b == |s| {
      assert TokensFrom(s, b) == [];
      assert w == s[i..];
    } else {
      assert b + 1 < |s| && s[b + 1] != ' ' by {
        assert !(s[b] == ' ' && s[b + 1] == ' ');
      }
      var rest := TokensFrom(s, b + 1);
      assert TokensFrom(s, i) == [w] + rest by {
        TokensFromSkip(s, b, b + 1);
      }
      assert rest != [] by {
        TokensFromStep(s, b + 1);
      }
      JoinRebuildsFrom(s, b + 1);
      JoinCons(w, rest);
      SplitAtSpace(s, i, b);
      calc {
        Join(TokensFrom(s, i));
        Join([w] + rest);
        w + [' '] + Join(rest);
        w + [' '] + s[b + 1..];
      }
    }
  }

  /** A line cut at a space: the part before it, the space, and the part after it. */
  lemma SplitAtSpace(s: string, i: nat, b: nat)
    requires i <= b < |s| && s[b] == ' '
    ensures s[i..] == s[i..b] + [' '] + s[b + 1..]
  {
    assert s[i..] == s[i..b] + s[b..];
    assert s[b..] == [s[b]] + s[b + 1..];
  }

  /** Joining a word in front of a non-empty list puts one space between them. */
  lemma JoinCons(w: string, rest: seq<string>)
    requires rest != []
    ensures Join([w] + rest) == w + [' '] + Join(rest)
  {
    assert ([w] + rest)[1..] == rest;
  }

  /** The tokens written one after another, with no separator. */
  function Concat(ts: seq<string>): string
  {
    if ts == [] then [] else ts[0] + Concat(ts[1..])
  }

  /** The characters of `line` from i on, with every space removed and every other character kept. */
  function NoSpacesFrom(line: string, i: nat): (r: string)
    requires i <= |line|
    ensures ' ' !in r && |r| <= |line| - i
    decreases |line| - i
  {
    if i == |line| then []
    else if line[i] == ' ' then NoSpacesFrom(line, i + 1)
    else [line[i]] + NoSpacesFrom(line, i + 1)
  }

  /**
   * Only the space separates: the tokens, put back together, are the line
   * with its spaces removed. Every other character, tab and line feed
   * included, lands in a token, in order, and none is added.
   */
  lemma TokensKeepNonSpaces(line: string)
    ensures Concat(Tokens(line)) == NoSpacesFrom(line, 0)
  {
    ConcatTokensFrom(line, 0);
  }

  /** `TokensKeepNonSpaces` from position i on. */
  lemma {:induction false} ConcatTokensFrom(line: string, i: nat)
    requires i <= |line|
    ensures Concat(TokensFrom(line, i)) == NoSpacesFrom(line, i)
    decreases |line| - i
  {
    if i < |line| {
      var a, b := SkipEnd(line, i), TokenEnd(line, i);
      TokensFromStep(line, i);
      SkipEndFacts(line, i);
      WordEndFacts(line, a);
      NoSpacesRun(line, i, a);
      NoSpacesWord(line, a, b);
      ConcatTokensFrom(line, b);
      var ts := [line[a..b]] + TokensFrom(line, b);
      assert ts[1..] == TokensFrom(line, b);
    }
  }

  /** A run of spaces contributes nothing. */
  lemma {:induction false} NoSpacesRun(line: string, i: nat, j: nat)
    requires i <= j <= |line|
    requires forall k :: i <= k < j ==> line[k] == ' '
    ensures NoSpacesFrom(line, i) == NoSpacesFrom(line, j)
    decreases j - i
  {
    if i < j {
      NoSpacesRun(line, i + 1, j);
    }
  }

  /** A run of non-spaces contributes itself. */
  lemma {:induction false} NoSpacesWord(line: string, i: nat, j: nat)
    requires i <= j <= |line|
    requires forall k :: i <= k < j ==> line[k] != ' '
    ensures NoSpacesFrom(line, i) == line[i..j] + NoSpacesFrom(line, j)
    decreases j - i
  {
    if i < j {
      NoSpacesWord(line, i + 1, j);
      NoSpacesKeep(line, i);
      var c, w, rest := line[i], line[i + 1..j], NoSpacesFrom(line, j);
      assert line[i..j] == [c] + w;
      assert [c] + (w + rest) == ([c] + w) + rest;
    }
  }

  /** A character other than a space is kept. */
  lemma NoSpacesKeep(line: string, i: nat)
    requires i < |line| && line[i] != ' '
    ensures NoSpacesFrom(line, i) == [line[i]] + NoSpacesFrom(line, i + 1)
  {
  }

  /** A space-free non-empty line is one token. */
  lemma SingleWord(w: string)
    requires w != [] && ' ' !in w
    ensures Tokens(w) == [w]
  {
    assert w[0] in w;
    WordEndRun(w, 0, |w|);
    TokensFromStep(w, 0);
    assert w[0..|w|] == w;
  }

  /** `struct Obj_mtl`: a material's id and its diffuse colour. */
  datatype Mtl = Mtl(id: string, kd: Vector3)

  /** The token rows after `split` wrote a line's tokens over the first of them. */
  function Overwrite(rows: seq<string>, line: string): (r: seq<string>)
    requires |Tokens(line)| <= |rows|
    ensures |r| == |rows|
    ensures r[..|Tokens(line)|] == Tokens(line)
    ensures r[|Tokens(line)|..] == rows[|Tokens(line)|..]
  {
    Tokens(line) + rows[|Tokens(line)|..]
  }

  /**
   * What `parse_mtl` keeps between lines: the token rows (`split` never
   * clears rows a short line does not reach), the materials and the index
   * of the material being filled.
   */
  datatype MtlState = MtlState(rows: seq<string>, mtls: seq<Mtl>, count: nat)

  /**
   * What the loop body of `parse_mtl` needs for one line: a line `fgets`
   * can return, one `split` can take, and room in the material array and
   * the id field for what the line writes.
   */
  predicate LineFits(st: MtlState, line: string)
  {
    |line| < MaxLenLine && SplitFits(line) && |st.rows| == MaxNumSubstr
    && var r := Overwrite(st.rows, line);
    (r[0] == "newmtl" ==> st.count < |st.mtls| && |r[1]| < MaxLenMtlId)
    && (r[0] == "Kd" ==> st.count < |st.mtls|)
  }

  /** One pass of the loop body of `parse_mtl`, with `atof` given as a function. */
  function MtlStep(st: MtlState, line: string, atof: string -> real): (r: MtlState)
    requires LineFits(st, line)
    ensures |r.mtls| == |st.mtls| && |r.rows| == |st.rows|
    ensures r.count == st.count || r.count == st.count + 1
    ensures st.count <= |st.mtls| ==> r.count <= |r.mtls|
  {
    var rows := Overwrite(st.rows, line);
    if rows[0] == "newmtl" then
      MtlState(rows, st.mtls[st.count := st.mtls[st.count].(id := rows[1])], st.count)
    else if rows[0] == "Kd" then
      var kd := CreatePoint(atof(rows[1]), atof(rows[2]), atof(rows[3]));
      MtlState(rows, st.mtls[st.count := st.mtls[st.count].(kd := kd)], st.count + 1)
    else
      MtlState(rows, st.mtls, st.count)
  }

  /** Every line of the file fits, each in the state the lines before it leave. */
  predicate RunFits(st: MtlState, lines: seq<string>, atof: string -> real)
    decreases |lines|
  {
    lines == [] || (LineFits(st, lines[0]) && RunFits(MtlStep(st, lines[0], atof), lines[1..], atof))
  }

  /** The state after the loop of `parse_mtl` has read every line. */
  function MtlRun(st: MtlState, lines: seq<string>, atof: string -> real): (r: MtlState)
    requires RunFits(st, lines, atof)
    ensures |r.mtls| == |st.mtls| && st.count <= r.count
    ensures st.count <= |st.mtls| ==> r.count <= |r.mtls|
    decreases |lines|
  {
    if lines == [] then st else MtlRun(MtlStep(st, lines[0], atof), lines[1..], atof)
  }

  /**
   * `parse_mtl` over the lines `fgets` returns: fills `out` and returns the
   * number of materials. `rows0` stands for the uninitialised token array.
   */
  method ParseMtl(lines: seq<string>, atof: string -> real, rows0: seq<string>, out: array<Mtl>) returns (n: int)
    requires |rows0| == MaxNumSubstr
    requires RunFits(MtlState(rows0, out[..], 0), lines, atof)
    modifies out
    ensures var r := MtlRun(MtlState(rows0, old(out[..]), 0), lines, atof);
      out[..] == r.mtls && n == r.count
  {
    var s := new string[MaxNumSubstr](m => if 0 <= m < |rows0| then rows0[m] else "");
    assert s[..] == rows0;
    var mtlI := 0;
    var i := 0;
    while i < |lines|
      invariant 0 <= i <= |lines| && 0 <= mtlI
      invariant RunFits(MtlState(s[..], out[..], mtlI), lines[i..], atof)
      invariant MtlRun(MtlState(s[..], out[..], mtlI), lines[i..], atof)
        == MtlRun(MtlState(rows0, old(out[..]), 0), lines, atof)
    {
      mtlI := ParseLine(lines[i], atof, s, out, mtlI);
      assert lines[i..][1..] == lines[i + 1..];
      i := i + 1;
    }
    n := mtlI;
  }

  /** The loop body of `parse_mtl` for one line: split it, then act on its first token. */
  method ParseLine(line: string, atof: string -> real, s: array<string>, out: array<Mtl>, mtlI: nat) returns (next: nat)
    requires s.Length == MaxNumSubstr && LineFits(MtlState(s[..], out[..], mtlI), line)
    modifies s, out
    ensures MtlState(s[..], out[..], next) == MtlStep(MtlState(old(s[..]), old(out[..]), mtlI), line, atof)
  {
    ghost var st := MtlState(s[..], out[..], mtlI);
    var lenS := Split(line, s);
    assert s[..] == Overwrite(st.rows, line);
    next := mtlI;
    if s[0] == "newmtl" {
      out[next] := out[next].(id := s[1]);
    }
    if s[0] == "Kd" {
      out[next] := out[next].(kd := CreatePoint(atof(s[1]), atof(s[2]), atof(s[3])));
      next := next + 1;
    }
  }

  /** A line whose first token is `Kd`. */
  predicate IsKdLine(line: string)
  {
    Tokens(line) != [] && Tokens(line)[0] == "Kd"
  }

  /** The number of `Kd` lines. */
  function KdLines(lines: seq<string>): nat
  {
    if lines == [] then 0 else (if IsKdLine(lines[0]) then 1 else 0) + KdLines(lines[1..])
  }

  /** Over lines that are not empty, as `fgets` returns them, the material count is the number of `Kd` lines. */
  lemma {:induction false} CountIsKdLines(st: MtlState, lines: seq<string>, atof: string -> real)
    requires RunFits(st, lines, atof)
    requires forall m :: 0 <= m < |lines| ==> lines[m] != []
    ensures MtlRun(st, lines, atof).count == st.count + KdLines(lines)
    decreases |lines|
  {
    if lines != [] {
      var line := lines[0];
      TokensEmpty(line);
      assert Overwrite(st.rows, line)[0] == Tokens(line)[0];
      CountIsKdLines(MtlStep(st, line, atof), lines[1..], atof);
    }
  }

  /**
   * Every material the run counts got its colour from a `Kd` line, so it is
   * a point; the slots past the final count are as they were.
   */
  lemma {:induction false} CountedAreFilled(st: MtlState, lines: seq<string>, atof: string -> real)
    requires RunFits(st, lines, atof) && st.count <= |st.mtls|
    ensures var r := MtlRun(st, lines, atof);
      (forall j :: st.count <= j < r.count ==> r.mtls[j].kd.w == 1.0)
      && (forall j :: r.count < j < |st.mtls| ==> r.mtls[j] == st.mtls[j])
      && (forall j :: 0 <= j < st.count ==> r.mtls[j] == st.mtls[j])
    decreases |lines|
  {
    if lines != [] {
      var next := MtlStep(st, lines[0], atof);
      CountedAreFilled(next, lines[1..], atof);
    }
  }

  /**
   * A `newmtl` line names the material being filled after its second
   * token; with no second token the id is whatever the row still holds from
   * an earlier line.
   */
  lemma NewmtlNames(st: MtlState, line: string, atof: string -> real)
    requires LineFits(st, line) && Tokens(line) != [] && Tokens(line)[0] == "newmtl"
    ensures var r := MtlStep(st, line, atof);
      r.count == st.count
      && r.mtls[st.count].id == (if |Tokens(line)| >= 2 then Tokens(line)[1] else st.rows[1])
      && r.mtls[st.count].kd == st.mtls[st.count].kd
  {
    var rows := Overwrite(st.rows, line);
    assert rows[0] == Tokens(line)[0];
    if |Tokens(line)| >= 2 {
      assert rows[1] == Tokens(line)[1];
    }
  }

  /** A `Kd` line with three numbers sets the colour of the current material to that point and moves to the next. */
  lemma KdFills(st: MtlState, line: string, atof: string -> real)
    requires LineFits(st, line) && |Tokens(line)| >= 4 && Tokens(line)[0] == "Kd"
    ensures var r := MtlStep(st, line, atof);
      var t := Tokens(line);
      r.count == st.count + 1
      && r.mtls[st.count].kd == CreatePoint(atof(t[1]), atof(t[2]), atof(t[3]))
      && r.mtls[st.count].id == st.mtls[st.count].id
  {
    var rows := Overwrite(st.rows, line);
    assert rows[..4] == Tokens(line)[..4];
    assert rows[0] == Tokens(line)[0] && rows[1] == Tokens(line)[1];
    assert rows[2] == Tokens(line)[2] && rows[3] == Tokens(line)[3];
  }

  /** An empty line leaves the rows alone, so the previous line's command runs again. */
  lemma EmptyLineRepeats(st: MtlState, atof: string -> real)
    requires LineFits(st, [])
    ensures MtlStep(st, [], atof).rows == st.rows
    ensures st.rows[0] == "Kd" ==> MtlStep(st, [], atof).count == st.count + 1
  {
    TokensEmpty([]);
  }

  /** The line feed `fgets` keeps becomes part of the last token, so a material read from "newmtl wood\n" is named "wood\n". */
  lemma LineFeedInId(st: MtlState, atof: string -> real)
    requires LineFits(st, "newmtl wood\n")
    ensures MtlStep(st, "newmtl wood\n", atof).mtls[st.count].id == "wood\n"
  {
    WoodTokens();
    NewmtlNames(st, "newmtl wood\n", atof);
  }

  /** The two tokens of "newmtl wood\n". */
  lemma WoodTokens()
    ensures Tokens("newmtl wood\n") == ["newmtl", "wood\n"]
  {
    assert "newmtl wood\n" == "newmtl" + " " + "wood\n";
    SingleWord("wood\n");
    WordThenSpaces("newmtl", " ", "wood\n");
  }
}
