/** Joining and splitting strings, as Go's strings package does. */
module Text {

  function Join(parts: seq<string>, sep: string): string {
    if parts == [] then ""
    else if |parts| == 1 then parts[0]
    else parts[0] + sep + Join(parts[1..], sep)
  }

  predicate StartsWith(s: string, prefix: string) {
    |s| >= |prefix| && s[..|prefix|] == prefix
  }

  predicate EndsWith(s: string, suffix: string) {
    |s| >= |suffix| && s[|s| - |suffix|..] == suffix
  }

  /** The pieces between non-overlapping occurrences of sep, from the left. */
  function Split(s: string, sep: string): (pieces: seq<string>)
    requires sep != ""
    ensures pieces != []
  {
    if s == "" then [""]
    else if StartsWith(s, sep) then [""] + Split(s[|sep|..], sep)
    else
      var rest := Split(s[1..], sep);
      [[s[0]] + rest[0]] + rest[1..]
  }

  /** No occurrence of sep begins inside the piece when sep follows it. */
  ghost predicate Apart(piece: string, sep: string) {
    forall tail: string, i :: 0 <= i < |piece| ==> !StartsWith((piece + tail)[i..], sep) || !(tail == "" || StartsWith(tail, sep))
  }

  lemma {:induction false} SplitFirst(piece: string, sep: string, rest: string)
    requires sep != "" && Apart(piece, sep)
    ensures Split(piece + sep + rest, sep) == [piece] + Split(rest, sep)
  {
    var s := piece + sep + rest;
    if piece == "" {
      assert s[..|sep|] == sep && s[|sep|..] == rest;
    } else {
      assert s == piece + (sep + rest);
      assert StartsWith(sep + rest, sep) by { assert (sep + rest)[..|sep|] == sep; }
      assert s[0..] == s;
      assert !StartsWith(s, sep);
      assert s[1..] == piece[1..] + sep + rest;
      ApartTail(piece, sep);
      SplitFirst(piece[1..], sep, rest);
      assert [piece[0]] + piece[1..] == piece;
    }
  }

  lemma {:induction false} SplitOne(piece: string, sep: string)
    requires sep != "" && Apart(piece, sep)
    ensures Split(piece, sep) == [piece]
  {
    if piece != "" {
      assert piece + "" == piece;
      assert piece[0..] == piece;
      assert !StartsWith(piece, sep);
      ApartTail(piece, sep);
      SplitOne(piece[1..], sep);
      assert [piece[0]] + piece[1..] == piece;
    }
  }

  lemma ApartTail(piece: string, sep: string)
    requires Apart(piece, sep) && piece != ""
    ensures Apart(piece[1..], sep)
  {
    forall tail: string, i | 0 <= i < |piece[1..]|
      ensures !StartsWith((piece[1..] + tail)[i..], sep) || !(tail == "" || StartsWith(tail, sep))
    {
      assert (piece + tail)[i + 1..] == (piece[1..] + tail)[i..];
    }
  }

  /** Splitting undoes joining. */
  lemma {:induction false} SplitJoin(parts: seq<string>, sep: string)
    requires sep != "" && parts != []
    requires forall i :: 0 <= i < |parts| ==> Apart(parts[i], sep)
    ensures Split(Join(parts, sep), sep) == parts
  {
    if |parts| == 1 {
      SplitOne(parts[0], sep);
    } else {
      SplitJoin(parts[1..], sep);
      SplitFirst(parts[0], sep, Join(parts[1..], sep));
    }
  }

  /** Joining can be done from either end. */
  lemma {:induction false} JoinAppend(parts: seq<string>, sep: string, last: string)
    requires parts != []
    ensures Join(parts + [last], sep) == Join(parts, sep) + sep + last
  {
    if |parts| == 1 {
      assert (parts + [last])[1..] == [last];
    } else {
      assert (parts + [last])[1..] == parts[1..] + [last];
      JoinAppend(parts[1..], sep, last);
    }
  }
}
