/**
 * Joining a list of strings with a comma, as JavaScript's `Array.prototype.join(",")`
 * does for an array of strings, and splitting a string at every comma. Splitting undoes
 * joining on non-empty comma-free lists, and joining undoes splitting on every string.
 */
module CommaJoin {

  const COMMA: char := ','

  /** True when no string of `parts` contains a comma. */
  predicate CommaFree(parts: seq<string>)
  {
    forall i :: 0 <= i < |parts| ==> COMMA !in parts[i]
  }

  /** The number of commas in `s`. */
  function CommaCount(s: string): nat
  {
    if |s| == 0 then 0 else (if s[0] == COMMA then 1 else 0) + CommaCount(s[1..])
  }

  /** The total number of characters in `parts`. */
  function TotalLength(parts: seq<string>): nat
  {
    if |parts| == 0 then 0 else |parts[0]| + TotalLength(parts[1..])
  }

  /**
   * The strings of `parts` in order, with one comma between neighbours: the empty
   * list gives the empty string and a one-element list gives that element.
   */
  function Join(parts: seq<string>): (r: string)
    ensures |parts| == 0 ==> r == ""
    ensures |parts| > 0 ==> |r| == TotalLength(parts) + |parts| - 1
    ensures |parts| > 0 ==> r[..|parts[0]|] == parts[0]
  {
    if |parts| == 0 then ""
    else if |parts| == 1 then parts[0]
    else parts[0] + [COMMA] + Join(parts[1..])
  }

  /**
   * The pieces of `s` between its commas, in order; a string with n commas has n + 1
   * pieces, so the empty string gives one empty piece.
   */
  function Split(s: string): (r: seq<string>)
    ensures |r| == CommaCount(s) + 1
    ensures CommaFree(r)
    ensures |r| - 1 == |s| - TotalLength(r)
    decreases |s|
  {
    if |s| == 0 then [""]
    else
      var rest := Split(s[1..]);
      if s[0] == COMMA then [""] + rest
      else [[s[0]] + rest[0]] + rest[1..]
  }

  /** A comma-free prefix is glued to the first piece of what follows it. */
  lemma {:induction false} SplitCommaFreePrefix(p: string, t: string)
    requires COMMA !in p
    ensures Split(p + t) == [p + Split(t)[0]] + Split(t)[1..]
    decreases |p|
  {
    if |p| == 0 {
      assert p + t == t;
      assert p + Split(t)[0] == Split(t)[0];
      assert Split(t) == [Split(t)[0]] + Split(t)[1..];
    } else {
      assert (p + t)[1..] == p[1..] + t;
      SplitCommaFreePrefix(p[1..], t);
      assert [p[0]] + (p[1..] + Split(t)[0]) == p + Split(t)[0];
    }
  }

  /** Splitting undoes joining, provided no part holds a comma and there is at least one part. */
  lemma {:induction false} SplitJoin(parts: seq<string>)
    requires |parts| > 0 && CommaFree(parts)
    ensures Split(Join(parts)) == parts
    decreases |parts|
  {
    if |parts| == 1 {
      SplitCommaFreePrefix(parts[0], "");
      assert parts[0] + "" == parts[0];
    } else {
      var tail := parts[1..];
      assert CommaFree(tail) by {
        forall i | 0 <= i < |tail| ensures COMMA !in tail[i] {
          assert tail[i] == parts[i + 1];
        }
      }
      SplitJoin(tail);
      assert parts[0] + [COMMA] + Join(tail) == parts[0] + ([COMMA] + Join(tail));
      var glued := [COMMA] + Join(tail);
      SplitCommaFreePrefix(parts[0], glued);
      assert glued[1..] == Join(tail);
      assert Split(glued) == [""] + tail;
      assert parts[0] + "" == parts[0];
      assert parts == [parts[0]] + tail;
    }
  }

  /** Joining undoes splitting, for every string. */
  lemma {:induction false} JoinSplit(s: string)
    ensures Join(Split(s)) == s
    decreases |s|
  {
    if |s| > 0 {
      var rest := Split(s[1..]);
      JoinSplit(s[1..]);
      if s[0] == COMMA {
        assert ([""] + rest)[1..] == rest;
        assert s == [s[0]] + s[1..];
      } else {
        var r := [[s[0]] + rest[0]] + rest[1..];
        if |rest| == 1 {
          assert s == [s[0]] + s[1..];
        } else {
          assert r[1..] == rest[1..];
          assert Join(rest) == rest[0] + [COMMA] + Join(rest[1..]);
          assert s == [s[0]] + s[1..];
        }
      }
    }
  }

  /**
   * Joining loses the boundaries of parts that hold a comma: one part "a,b" and the
   * two parts "a" and "b" give the same string.
   */
  lemma JoinNotInjective()
    ensures Join(["a,b"]) == Join(["a", "b"])
    ensures Join([]) == Join([""])
  {
    assert Join(["a", "b"]) == "a" + [COMMA] + Join(["b"]);
  }
}
