/**
 * The quoting of customer search queries (internal/stripe/client.go:206,213,249-258): a value is
 * escaped, put between single quotes, and must read back as itself.
 */
module SearchQuery {
  import opened Wrappers
  import opened MetadataNames

  const QUOTE: Byte := 39
  const BACKSLASH: Byte := 92

  function EscapeByte(b: Byte): Bytes {
    if b == QUOTE || b == BACKSLASH then [BACKSLASH, b] else [b]
  }

  function Escape(v: Bytes): Bytes {
    if v == [] then [] else Escape(v[..|v| - 1]) + EscapeByte(v[|v| - 1])
  }

  method EscapeSearchQueryValue(v: Bytes) returns (out: Bytes)
    ensures out == Escape(v)
  {
    out := [];
    var i := 0;
    while i < |v|
      invariant i <= |v| && out == Escape(v[..i])
    {
      assert v[..i + 1][..i] == v[..i];
      if v[i] == QUOTE || v[i] == BACKSLASH {
        out := out + [BACKSLASH];
      }
      out := out + [v[i]];
      i := i + 1;
    }
    assert v[..i] == v;
  }

  /** The value of a quoted string and what follows it, scanning after the opening quote. */
  datatype Scanned = Scanned(value: Bytes, rest: Bytes)

  /** A backslash takes the next byte literally; a bare quote ends the string. */
  function Scan(s: Bytes): Option<Scanned> {
    if s == [] then None
    else if s[0] == QUOTE then Some(Scanned([], s[1..]))
    else if s[0] == BACKSLASH then
      if |s| == 1 then None else Push(s[1], Scan(s[2..]))
    else Push(s[0], Scan(s[1..]))
  }

  function Push(b: Byte, r: Option<Scanned>): Option<Scanned> {
    if r.None? then None else Some(Scanned([b] + r.value.value, r.value.rest))
  }

  /** A bare ' ends the value, \ takes the next byte as it is, and any other byte stands for itself. */
  lemma ScanSays(b: Byte, s: Bytes)
    ensures Scan([39] + s) == Some(Scanned([], s)) && Scan([]).None?
    ensures b == 39 || b == 92 || Scan([b] + s) == Push(b, Scan(s))
    ensures Scan([92, b] + s) == Push(b, Scan(s))
  {
    assert ([39] + s)[1..] == s && ([b] + s)[1..] == s && ([92, b] + s)[2..] == s;
  }

  lemma {:induction false} EscapeCons(v: Bytes)
    requires v != []
    ensures Escape(v) == EscapeByte(v[0]) + Escape(v[1..])
  {
    var init, last := v[..|v| - 1], v[|v| - 1];
    if init == [] {
      assert v[1..] == [] && Escape(init) == [];
    } else {
      EscapeCons(init);
      assert init[1..] == v[1..][..|v| - 2];
      assert v[1..][|v| - 2] == last;
    }
  }

  /** Scanning an escaped value stops at exactly its closing quote and yields the value. */
  lemma {:induction false} ScanUndoesEscape(v: Bytes, rest: Bytes)
    ensures Scan(Escape(v) + [39] + rest) == Some(Scanned(v, rest))
  {
    var s := Escape(v) + [QUOTE] + rest;
    if v == [] {
      assert s[1..] == rest;
    } else {
      var tail := Escape(v[1..]) + [QUOTE] + rest;
      EscapeCons(v);
      ScanUndoesEscape(v[1..], rest);
      assert s == EscapeByte(v[0]) + tail;
      if v[0] == QUOTE || v[0] == BACKSLASH {
        assert s[2..] == tail && s[1] == v[0];
      } else {
        assert s[1..] == tail;
      }
      assert [v[0]] + v[1..] == v;
    }
  }

  /** The query for a metadata key: key and value between fixed quotes. */
  function Query(key: Bytes, v: Bytes): Bytes {
    key + [QUOTE] + Escape(v) + [QUOTE]
  }

  /** A query is the key, an opening quote, and a string that reads back as the value and ends the query. */
  lemma QueryReads(key: Bytes, v: Bytes)
    ensures |Query(key, v)| > |key| && Query(key, v)[..|key| + 1] == key + [39]
    ensures Scan(Query(key, v)[|key| + 1..]) == Some(Scanned(v, []))
  {
    ScanUndoesEscape(v, []);
    assert Query(key, v)[|key| + 1..] == Escape(v) + [QUOTE] + [];
  }

  /** Different values never give the same query, so a search cannot ask for another account. */
  lemma QueriesDistinct(key: Bytes, v: Bytes, w: Bytes)
    ensures Query(key, v) == Query(key, w) <==> v == w
  {
    QueryReads(key, v);
    QueryReads(key, w);
  }
}
