/** ColonDelimitedStringParser: a path list split on ':' or ';' the way
    Java's String.split with the pattern "(:|;)" splits it. A string without
    a delimiter is returned whole (the empty string included); otherwise the
    pieces between delimiters are kept in order, leading empty pieces
    included, and the empty pieces at the end are dropped. */
module ClasspathStrings {
  import opened JavaLang

  predicate IsDelimiter(c: char) {
    c == ':' || c == ';'
  }

  predicate NoDelimiter(s: string) {
    forall i :: 0 <= i < |s| ==> !IsDelimiter(s[i])
  }

  /** The delimiter characters of `s`, in order. */
  function Delimiters(s: string): (d: seq<char>)
    ensures |d| <= |s|
    ensures forall i :: 0 <= i < |d| ==> IsDelimiter(d[i])
    ensures |d| == 0 <==> NoDelimiter(s)
  {
    if s == [] then []
    else if IsDelimiter(s[0]) then [s[0]] + Delimiters(s[1..])
    else Delimiters(s[1..])
  }

  /** Every piece between delimiters, empty ones included. */
  function Pieces(s: string): (r: seq<string>)
    ensures |r| == |Delimiters(s)| + 1
    ensures forall k :: 0 <= k < |r| ==> NoDelimiter(r[k])
  {
    if s == [] then [[]]
    else
      var rest := Pieces(s[1..]);
      if IsDelimiter(s[0]) then [[]] + rest
      else [[s[0]] + rest[0]] + rest[1..]
  }

  /** The pieces with the delimiters put back between them. */
  function Join(pieces: seq<string>, delimiters: seq<char>): (r: string)
    requires |pieces| == |delimiters| + 1
    ensures pieces[0] <= r
  {
    if delimiters == [] then pieces[0]
    else pieces[0] + [delimiters[0]] + Join(pieces[1..], delimiters[1..])
  }

  /** Java drops the empty strings at the end of the result. */
  function DropTrailingEmpty(pieces: seq<string>): (r: seq<string>)
    ensures r <= pieces
    ensures r == [] || r[|r| - 1] != []
    ensures forall k :: |r| <= k < |pieces| ==> pieces[k] == []
  {
    if pieces == [] then []
    else if pieces[|pieces| - 1] == [] then DropTrailingEmpty(pieces[..|pieces| - 1])
    else pieces
  }

  /** str.split("(:|;)"). */
  function Split(s: string): (r: seq<string>)
    ensures NoDelimiter(s) ==> r == [s]
    ensures forall k :: 0 <= k < |r| ==> NoDelimiter(r[k])
    ensures |r| <= |Delimiters(s)| + 1
  {
    if NoDelimiter(s) then [s] else DropTrailingEmpty(Pieces(s))
  }

  /** Splitting and joining back with the same delimiters reproduces the
      string. */
  lemma {:induction false} JoinPieces(s: string)
    ensures Join(Pieces(s), Delimiters(s)) == s
  {
    if s != [] {
      var rest := Pieces(s[1..]);
      JoinPieces(s[1..]);
      if IsDelimiter(s[0]) {
        assert Pieces(s) == [[]] + rest;
        assert Pieces(s)[1..] == rest;
      } else {
        JoinExtendsFirst(s[0], rest, Delimiters(s[1..]));
        assert Pieces(s) == [[s[0]] + rest[0]] + rest[1..];
      }
    }
  }

  lemma {:induction false} JoinExtendsFirst(c: char, pieces: seq<string>, delimiters: seq<char>)
    requires |pieces| == |delimiters| + 1
    ensures Join([[c] + pieces[0]] + pieces[1..], delimiters) == [c] + Join(pieces, delimiters)
  {
    var p := [[c] + pieces[0]] + pieces[1..];
    assert p[0] == [c] + pieces[0];
    if delimiters != [] {
      assert p[1..] == pieces[1..];
    }
  }

  /** The properties of the split result. */
  lemma SplitProperties(s: string)
    ensures NoDelimiter(s) ==> Split(s) == [s]
    ensures forall k :: 0 <= k < |Split(s)| ==> NoDelimiter(Split(s)[k])
    ensures !NoDelimiter(s) ==> Split(s) == [] || Split(s)[|Split(s)| - 1] != []
    ensures |Split(s)| <= |Delimiters(s)| + 1
    ensures !NoDelimiter(s) ==>
      Split(s) <= Pieces(s) && forall k :: |Split(s)| <= k < |Pieces(s)| ==> Pieces(s)[k] == []
  {
  }

  /** Re-joining: the elements, with the delimiters of the input put back
      between them, reproduce the input up to the trailing delimiters that
      closed the dropped empty pieces. */
  lemma {:induction false} RejoinUpToTrailingDelimiters(s: string)
    requires !NoDelimiter(s) && Split(s) != []
    ensures var r := Split(s);
            var prefix := Join(r, Delimiters(s)[..|r| - 1]);
            prefix <= s && forall i :: |prefix| <= i < |s| ==> IsDelimiter(s[i])
  {
    var p, d := Pieces(s), Delimiters(s);
    var r := DropTrailingEmpty(p);
    assert r == Split(s);
    assert r == p[..|r|];
    JoinPieces(s);
    JoinSplitsAt(p, d, |r|);
  }

  /** Joining all pieces is joining the first n, then the n-th delimiter,
      then the rest, where the rest are empty pieces: only delimiters. */
  lemma {:induction false} JoinSplitsAt(p: seq<string>, d: seq<char>, n: nat)
    requires |p| == |d| + 1 && 1 <= n <= |p|
    requires forall i :: 0 <= i < |d| ==> IsDelimiter(d[i])
    requires forall k :: n <= k < |p| ==> p[k] == []
    ensures var prefix := Join(p[..n], d[..n - 1]);
            prefix <= Join(p, d)
            && forall i :: |prefix| <= i < |Join(p, d)| ==> IsDelimiter(Join(p, d)[i])
    decreases n
  {
    if n == 1 {
      assert p[..1][0] == p[0];
      OnlyDelimitersAfterFirst(p, d);
    } else {
      assert d != [];
      JoinSplitsAt(p[1..], d[1..], n - 1);
      assert p[..n][0] == p[0] && p[..n][1..] == p[1..][..n - 1];
      assert d[..n - 1][0] == d[0] && d[..n - 1][1..] == d[1..][..n - 2];
    }
  }

  lemma {:induction false} OnlyDelimitersAfterFirst(p: seq<string>, d: seq<char>)
    requires |p| == |d| + 1
    requires forall i :: 0 <= i < |d| ==> IsDelimiter(d[i])
    requires forall k :: 1 <= k < |p| ==> p[k] == []
    ensures Join(p, d) == p[0] + d
    decreases |d|
  {
    if d != [] {
      OnlyDelimitersAfterFirst(p[1..], d[1..]);
      assert p[1..][0] == [];
    }
  }

  /** One step of Pieces, on a string written as its first character and
      the rest. */
  lemma PiecesCons(c: char, s: string)
    ensures Pieces([c] + s) ==
      if IsDelimiter(c) then [[]] + Pieces(s) else [[c] + Pieces(s)[0]] + Pieces(s)[1..]
  {
    assert ([c] + s)[0] == c && ([c] + s)[1..] == s;
  }

  /** Without a delimiter the input comes back whole, the empty string
      included. */
  lemma SplitWithoutDelimiter()
    ensures Split("") == [""]
    ensures Split("a") == ["a"]
  {
    assert NoDelimiter("a");
  }

  /** Both delimiters separate. */
  lemma SplitsOnColonAndSemicolon()
    ensures Split("a:b;c") == ["a", "b", "c"]
  {
    PiecesCons('c', "");
    assert "c" == ['c'] + "";
    PiecesCons(';', "c");
    assert ";c" == [';'] + "c";
    assert Pieces(";c") == ["", "c"];
    PiecesCons('b', ";c");
    assert "b;c" == ['b'] + ";c";
    assert ['b'] + "" == "b";
    assert Pieces("b;c") == ["b", "c"];
    PiecesCons(':', "b;c");
    assert ":b;c" == [':'] + "b;c";
    assert Pieces(":b;c") == ["", "b", "c"];
    PiecesCons('a', ":b;c");
    assert "a:b;c" == ['a'] + ":b;c";
    assert ['a'] + "" == "a";
    assert "a:b;c"[1] == ':';
    assert Pieces("a:b;c") == ["a", "b", "c"];
  }

  /** A trailing empty piece is dropped, a leading one kept, and a string of
      delimiters only gives no pieces at all. */
  lemma SplitEmptyPieces()
    ensures Split("a:") == ["a"]
    ensures Split(":a") == ["", "a"]
    ensures Split("::") == []
  {
    PiecesCons(':', "");
    assert ":" == [':'] + "";
    assert Pieces(":") == ["", ""];
    PiecesCons('a', ":");
    assert "a:" == ['a'] + ":";
    assert ['a'] + "" == "a";
    assert "a:"[1] == ':';
    assert Pieces("a:") == ["a", ""];
    assert DropTrailingEmpty(["a", ""]) == DropTrailingEmpty(["a"]);
    PiecesCons('a', "");
    assert "a" == ['a'] + "";
    PiecesCons(':', "a");
    assert ":a" == [':'] + "a";
    assert ":a"[0] == ':';
    assert Pieces(":a") == ["", "a"];
    PiecesCons(':', ":");
    assert "::" == [':'] + ":";
    assert "::"[0] == ':';
    assert Pieces("::") == ["", "", ""];
    assert DropTrailingEmpty(["", "", ""]) == DropTrailingEmpty(["", ""]) == DropTrailingEmpty([""]) == [];
  }

  /** A java.io.File, known here only by the path it was made from. */
  datatype File = File(path: string)

  class ColonDelimitedStringParser {
    var list: seq<string>

    /** A null string gives the empty list; otherwise the split pieces. */
    constructor (str: Option<string>)
      ensures list == if str.None? then [] else Split(str.value)
    {
      list := [];
      if str.Some? {
        list := list + Split(str.value);
      }
    }

    /** getListOfStrings: the list built by the constructor. */
    method GetListOfStrings() returns (r: seq<string>)
      ensures r == list
    {
      r := list;
    }

    /** getListOfFiles: one File per element of the list, in order. */
    method GetListOfFiles() returns (classpath: seq<File>)
      ensures |classpath| == |list|
      ensures forall i :: 0 <= i < |list| ==> classpath[i].path == list[i]
    {
      classpath := [];
      for k := 0 to |list|
        invariant |classpath| == k
        invariant forall i :: 0 <= i < k ==> classpath[i].path == list[i]
      {
        classpath := classpath + [File(list[k])];
      }
    }
  }
}
