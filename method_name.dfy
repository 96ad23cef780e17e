/** extractMiddlePart: the method-type token of a dotted method name such as
    "thing.property.post", obtained with Java's String.split("\\."). */
module MethodName {
  import opened ThingsTypes

  const DOT: char := '.'

  /** ThingsMethodType.ALL_METHOD.name() */
  const ALL_METHOD: string := "ALL_METHOD"

  /** Cuts `s` at every dot and keeps the empty pieces: n dots give n + 1 pieces. */
  function Pieces(s: string): (r: seq<string>)
    ensures |r| >= 1
  {
    if s == [] then [[]]
    else
      var rest := Pieces(s[1..]);
      if s[0] == DOT then [[]] + rest
      else [[s[0]] + rest[0]] + rest[1..]
  }

  /** Glues pieces back together with a dot between neighbours. */
  function Join(parts: seq<string>): string {
    if |parts| == 0 then []
    else if |parts| == 1 then parts[0]
    else parts[0] + [DOT] + Join(parts[1..])
  }

  /** A string made of `n` dots. */
  function Dots(n: nat): (r: string)
    ensures |r| == n && forall i :: 0 <= i < n ==> r[i] == DOT
  {
    seq(n, _ => DOT)
  }

  /** Removes the empty pieces at the end, as String.split does without a limit. */
  function DropTrailingEmpty(parts: seq<string>): (r: seq<string>)
    ensures r <= parts
    ensures r == [] || r[|r| - 1] != []
    ensures forall i :: |r| <= i < |parts| ==> parts[i] == []
  {
    if parts == [] then []
    else if parts[|parts| - 1] == [] then DropTrailingEmpty(parts[..|parts| - 1])
    else parts
  }

  /** String.split("\\."): a string without a dot comes back whole (even the
      empty string); otherwise the pieces with trailing empty ones removed. */
  function Split(s: string): (r: seq<string>)
    ensures forall i :: 0 <= i < |r| ==> DOT !in r[i]
    ensures DOT in s ==> r == [] || r[|r| - 1] != []
  {
    if DOT !in s then [s]
    else
      PiecesJoin(s);
      DropTrailingEmpty(Pieces(s))
  }

  /** extractMiddlePart: the guard admits one part, and reading parts[1] then
      raises ArrayIndexOutOfBoundsException; ALL_METHOD needs zero parts. */
  function ExtractMiddlePart(input: string): (r: Result<string, Failure>)
    ensures r.Err? <==> |Split(input)| == 1
    ensures r.Err? ==> r.error == ArrayIndexOutOfBounds(1, 1)
    ensures r.Ok? ==> DOT !in r.value
  {
    var parts := Split(input);
    if |parts| >= 1 then
      if 1 < |parts| then Ok(parts[1]) else Err(ArrayIndexOutOfBounds(1, |parts|))
    else Ok(ALL_METHOD)
  }

  /** Pieces is undone by Join, and no piece holds a dot. */
  lemma {:induction false} PiecesJoin(s: string)
    ensures Join(Pieces(s)) == s
    ensures forall i :: 0 <= i < |Pieces(s)| ==> DOT !in Pieces(s)[i]
  {
    if s != [] {
      PiecesJoin(s[1..]);
      var rest := Pieces(s[1..]);
      if s[0] == DOT {
        assert Pieces(s) == [[]] + rest;
        assert Join(Pieces(s)) == [] + [DOT] + Join(rest);
        assert s == [s[0]] + s[1..];
      } else {
        assert Pieces(s) == [[s[0]] + rest[0]] + rest[1..];
        if |rest| == 1 {
          assert Join(Pieces(s)) == [s[0]] + rest[0];
        } else {
          assert Join(rest) == rest[0] + [DOT] + Join(rest[1..]);
          assert Join(Pieces(s)) == ([s[0]] + rest[0]) + [DOT] + Join(rest[1..]);
        }
        assert s == [s[0]] + s[1..];
        forall i | 0 <= i < |Pieces(s)| ensures DOT !in Pieces(s)[i] {
          if i == 0 {
            assert Pieces(s)[0] == [s[0]] + rest[0];
          } else {
            assert Pieces(s)[i] == rest[i];
          }
        }
      }
    }
  }

  /** A dot-free string is a single piece. */
  lemma {:induction false} PiecesOfDotFree(p: string)
    requires DOT !in p
    ensures Pieces(p) == [p]
  {
    if p != [] {
      PiecesOfDotFree(p[1..]);
      assert p == [p[0]] + p[1..];
    }
  }

  /** A dot-free prefix followed by a dot is the first piece. */
  lemma {:induction false} PiecesAfterDot(p: string, q: string)
    requires DOT !in p
    ensures Pieces(p + [DOT] + q) == [p] + Pieces(q)
  {
    if p == [] {
      assert [] + [DOT] + q == [DOT] + q;
      assert ([DOT] + q)[1..] == q;
    } else {
      PiecesAfterDot(p[1..], q);
      var s := p + [DOT] + q;
      assert s[0] == p[0] && s[1..] == p[1..] + [DOT] + q;
      assert [p[0]] + p[1..] == p;
    }
  }

  /** A string of dots only is cut into empty pieces. */
  lemma {:induction false} PiecesOfDots(n: nat)
    ensures forall i :: 0 <= i < |Pieces(Dots(n))| ==> Pieces(Dots(n))[i] == []
  {
    if n > 0 {
      PiecesOfDots(n - 1);
      assert Dots(n)[1..] == Dots(n - 1);
    }
  }

  /** Pieces that are all empty glue back into a string of dots only. */
  lemma {:induction false} JoinOfEmptyPieces(parts: seq<string>)
    requires forall i :: 0 <= i < |parts| ==> parts[i] == []
    ensures forall k :: 0 <= k < |Join(parts)| ==> Join(parts)[k] == DOT
  {
    if |parts| > 1 {
      JoinOfEmptyPieces(parts[1..]);
      assert Join(parts) == [] + [DOT] + Join(parts[1..]);
    }
  }

  /** A well-formed name "prefix.type" or "prefix.type.more" yields "type". */
  lemma MiddleOfDottedName(p: string, m: string, rest: string)
    requires DOT !in p && DOT !in m && m != []
    requires rest == [] || rest[0] == DOT
    ensures ExtractMiddlePart(p + [DOT] + m + rest) == Ok(m)
  {
    var s := p + [DOT] + m + rest;
    assert s == p + [DOT] + (m + rest);
    assert s[|p|] == DOT;
    PiecesAfterDot(p, m + rest);
    var parts := Pieces(s);
    if rest == [] {
      assert m + rest == m;
      PiecesOfDotFree(m);
    } else {
      assert m + rest == m + [DOT] + rest[1..];
      PiecesAfterDot(m, rest[1..]);
    }
    assert parts[1] == m;
    var r := DropTrailingEmpty(parts);
    assert 1 < |r|;
    assert r[1] == parts[1];
  }

  /** A name without a dot, even one followed only by dots, has one part
      after splitting, so reading the second part fails. */
  lemma SingleSegmentFails(p: string, n: nat)
    requires DOT !in p && p != []
    ensures ExtractMiddlePart(p + Dots(n)) == Err(ArrayIndexOutOfBounds(1, 1))
  {
    var s := p + Dots(n);
    if n == 0 {
      assert s == p;
    } else {
      assert s == p + [DOT] + Dots(n - 1);
      assert s[|p|] == DOT;
      PiecesAfterDot(p, Dots(n - 1));
      PiecesOfDots(n - 1);
      var parts := Pieces(s);
      var r := DropTrailingEmpty(parts);
      assert parts[0] == p;
      assert forall k :: 1 <= k < |parts| ==> parts[k] == [];
      assert |r| == 1;
    }
  }

  /** Splitting yields no part at all exactly when the name is made of dots
      only, and only then does extraction fall back to ALL_METHOD by way of
      the empty split. */
  lemma NoPartsIffOnlyDots(s: string)
    ensures |Split(s)| == 0 <==> (s != [] && forall i :: 0 <= i < |s| ==> s[i] == DOT)
    ensures |Split(s)| == 0 ==> ExtractMiddlePart(s) == Ok(ALL_METHOD)
  {
    if s != [] && forall i :: 0 <= i < |s| ==> s[i] == DOT {
      assert s == Dots(|s|);
      assert s[0] == DOT;
      PiecesOfDots(|s|);
      var r := DropTrailingEmpty(Pieces(s));
      assert forall k :: 0 <= k < |Pieces(s)| ==> Pieces(s)[k] == [];
      assert r == [];
    }
    if |Split(s)| == 0 {
      assert DOT in s;
      PiecesJoin(s);
      JoinOfEmptyPieces(Pieces(s));
    }
  }
}
