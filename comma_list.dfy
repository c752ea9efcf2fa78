/**
 * The on-disk encoding of the Views and Tags lists: the elements joined with
 * commas (Python's `','.join`) and read back with Python's `str.split(',')`.
 */
module CommaList {

  predicate CommaFree(s: string) {
    forall i :: 0 <= i < |s| ==> s[i] != ','
  }

  predicate AllCommaFree(xs: seq<string>) {
    forall i :: 0 <= i < |xs| ==> CommaFree(xs[i])
  }

  /** Python's `s.split(',')`: never empty; "" splits into [""], "a,,b" into ["a", "", "b"]. */
  function Split(s: string): (r: seq<string>)
    ensures |r| >= 1
    ensures AllCommaFree(r)
  {
    if |s| == 0 then [""]
    else if s[0] == ',' then [""] + Split(s[1..])
    else
      var rest := Split(s[1..]);
      [[s[0]] + rest[0]] + rest[1..]
  }

  /** Python's `','.join(xs)`. */
  function Join(xs: seq<string>): (r: string)
    ensures |xs| == 1 ==> r == xs[0]
  {
    if |xs| == 0 then ""
    else if |xs| == 1 then xs[0]
    else xs[0] + "," + Join(xs[1..])
  }

  /**
   * How settings.initialize decodes a list-valued option: a non-empty raw value
   * replaces the list by its comma split, an empty one keeps the prior list.
   */
  function Decode(raw: string, prior: seq<string>): (r: seq<string>)
    ensures raw == "" ==> r == prior
    ensures raw != "" ==> r == Split(raw) && r != [""]
  {
    if raw != "" then
      JoinSplit(raw);
      Split(raw)
    else prior
  }

  /** A list survives a save followed by a load: no element holds a comma and it is not [""]. */
  predicate Storable(xs: seq<string>) {
    AllCommaFree(xs) && xs != [""]
  }

  /** Joining a split gives the original text back, for every string. */
  lemma {:induction false} JoinSplit(s: string)
    ensures Join(Split(s)) == s
  {
    if |s| == 0 {
    } else if s[0] == ',' {
      var rest := Split(s[1..]);
      JoinSplit(s[1..]);
      assert Split(s) == [""] + rest;
      assert ([""] + rest)[1..] == rest;
      assert Join(Split(s)) == "" + "," + Join(rest);
      assert s == [','] + s[1..];
    } else {
      var rest := Split(s[1..]);
      JoinSplit(s[1..]);
      var first := [s[0]] + rest[0];
      assert Split(s) == [first] + rest[1..];
      assert s == [s[0]] + s[1..];
      if |rest| == 1 {
        assert Join(Split(s)) == first;
      } else {
        assert ([first] + rest[1..])[1..] == rest[1..];
        assert Join(Split(s)) == first + "," + Join(rest[1..]);
        assert Join(rest) == rest[0] + "," + Join(rest[1..]);
      }
    }
  }

  /** Splitting a comma-free prefix glued to t extends the first piece of t's split. */
  lemma {:induction false} SplitCommaFreePrefix(w: string, t: string)
    requires CommaFree(w)
    ensures Split(w + t) == [w + Split(t)[0]] + Split(t)[1..]
  {
    if |w| == 0 {
      var r := Split(t);
      assert w + t == t && w + r[0] == r[0];
      assert r == [r[0]] + r[1..];
    } else {
      assert (w + t)[0] == w[0];
      assert (w + t)[1..] == w[1..] + t;
      SplitCommaFreePrefix(w[1..], t);
      assert [w[0]] + (w[1..] + Split(t)[0]) == w + Split(t)[0];
    }
  }

  /** Splitting the join of a non-empty list of comma-free elements gives the list back. */
  lemma {:induction false} SplitJoin(xs: seq<string>)
    requires |xs| >= 1 && AllCommaFree(xs)
    ensures Split(Join(xs)) == xs
  {
    if |xs| == 1 {
      SplitCommaFreePrefix(xs[0], "");
      assert xs[0] + "" == xs[0];
    } else {
      var tail := xs[1..];
      assert AllCommaFree(tail) by {
        forall i | 0 <= i < |tail| ensures CommaFree(tail[i]) { assert tail[i] == xs[i + 1]; }
      }
      SplitJoin(tail);
      var t := Join(tail);
      assert Join(xs) == xs[0] + ("," + t);
      SplitCommaFreePrefix(xs[0], "," + t);
      assert Split("," + t) == [""] + Split(t) by {
        assert ("," + t)[1..] == t;
      }
      assert xs[0] + "" == xs[0];
      assert xs == [xs[0]] + tail;
    }
  }

  /** Only the empty list and [""] join to the empty text. */
  lemma JoinEmpty(xs: seq<string>)
    ensures Join(xs) == "" <==> xs == [] || xs == [""]
  {
    if |xs| >= 2 {
      assert |Join(xs)| >= 1;
    }
  }

  /**
   * Saving a list and loading it back: a storable list comes back as it was,
   * except that an empty list is read as whatever list was in place before.
   */
  lemma DecodeJoin(xs: seq<string>, prior: seq<string>)
    requires Storable(xs)
    ensures Decode(Join(xs), prior) == if xs == [] then prior else xs
  {
    JoinEmpty(xs);
    if xs != [] {
      SplitJoin(xs);
    }
  }

  /** Loading a list and saving it again writes the raw text unchanged, when the prior list was empty. */
  lemma JoinDecode(raw: string)
    ensures Join(Decode(raw, [])) == raw
  {
    if raw != "" {
      JoinSplit(raw);
    }
  }
}
