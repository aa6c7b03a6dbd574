/**
 * The two string primitives the route file relies on: `Array.prototype.join`
 * (building the MAC input) and `String.prototype.split` with a one-character
 * separator (taking the token out of the Authorization header).
 */
module Text {

  /** `parts.join(sep)`: the parts with one separator between neighbours. */
  function Join(parts: seq<string>, sep: char): string {
    if |parts| == 0 then ""
    else if |parts| == 1 then parts[0]
    else parts[0] + [sep] + Join(parts[1..], sep)
  }

  /**
   * `s.split(sep)`: the maximal separator-free pieces of `s`, left to right.
   * There is always one more piece than there are separators in `s`.
   */
  function Split(s: string, sep: char): (pieces: seq<string>)
    ensures |pieces| >= 1
    ensures sep in s ==> |pieces| >= 2
    ensures forall i :: 0 <= i < |pieces| ==> sep !in pieces[i]
  {
    if |s| == 0 then [""]
    else
      var rest := Split(s[1..], sep);
      if s[0] == sep then [""] + rest
      else [[s[0]] + rest[0]] + rest[1..]
  }

  /** Splitting and joining again on the same separator gives back the string. */
  lemma {:induction false} JoinOfSplit(s: string, sep: char)
    ensures Join(Split(s, sep), sep) == s
  {
    if |s| > 0 {
      var rest := Split(s[1..], sep);
      JoinOfSplit(s[1..], sep);
      assert Join(rest, sep) == s[1..];
      if s[0] == sep {
        var pieces := [""] + rest;
        assert Split(s, sep) == pieces;
        assert pieces[1..] == rest;
        assert Join(pieces, sep) == "" + [sep] + Join(rest, sep);
        assert s == [sep] + s[1..];
      } else {
        var pieces := [[s[0]] + rest[0]] + rest[1..];
        assert Split(s, sep) == pieces;
        if |rest| == 1 {
          assert Join(pieces, sep) == [s[0]] + rest[0];
        } else {
          assert pieces[1..] == rest[1..];
          assert Join(pieces, sep) == [s[0]] + rest[0] + [sep] + Join(rest[1..], sep);
          assert Join(rest, sep) == rest[0] + [sep] + Join(rest[1..], sep);
        }
        assert s == [s[0]] + s[1..];
      }
    }
  }

  /** A separator-free prefix is glued onto the first piece of what follows it. */
  lemma {:induction false} SplitOfPrefix(a: string, t: string, sep: char)
    requires sep !in a
    ensures Split(a + t, sep) == [a + Split(t, sep)[0]] + Split(t, sep)[1..]
  {
    if |a| > 0 {
      assert (a + t)[0] == a[0];
      assert (a + t)[1..] == a[1..] + t;
      SplitOfPrefix(a[1..], t, sep);
      assert [a[0]] + (a[1..] + Split(t, sep)[0]) == a + Split(t, sep)[0];
    } else {
      assert a + t == t;
      var pieces := Split(t, sep);
      assert |pieces| >= 1;
      assert a + pieces[0] == pieces[0];
      assert pieces == [pieces[0]] + pieces[1..];
    }
  }

  /**
   * Joining separator-free parts and splitting again gives back exactly the
   * parts, in order: the joined string determines each field.
   */
  lemma {:induction false} SplitOfJoin(parts: seq<string>, sep: char)
    requires |parts| >= 1
    requires forall i :: 0 <= i < |parts| ==> sep !in parts[i]
    ensures Split(Join(parts, sep), sep) == parts
  {
    if |parts| == 1 {
      SplitOfPrefix(parts[0], "", sep);
      assert parts[0] + "" == parts[0];
    } else {
      var tail := Join(parts[1..], sep);
      SplitOfJoin(parts[1..], sep);
      assert parts[0] + [sep] + tail == parts[0] + ([sep] + tail);
      SplitOfPrefix(parts[0], [sep] + tail, sep);
      assert ([sep] + tail)[1..] == tail;
      var after := [sep] + tail;
      assert after[0] == sep;
      assert Split(after, sep) == [""] + Split(tail, sep);
      assert Split(after, sep)[0] == "" && Split(after, sep)[1..] == parts[1..];
      assert parts[0] + "" == parts[0];
      assert Join(parts, sep) == parts[0] + after;
      assert parts == [parts[0]] + parts[1..];
    }
  }
}
