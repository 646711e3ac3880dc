/**
 * joinNamesForMetadata (internal/stripe/client.go:333-351), which renders a list of names into
 * one bounded metadata value, and the splitter that reads the value back when a legacy customer
 * is matched (internal/stripe/client.go:218-220). Go strings are byte strings.
 */
module MetadataNames {
  type Byte = b: int | 0 <= b < 256
  type Bytes = seq<Byte>

  const COMMA: Byte := 44
  const SPACE: Byte := 32
  const SEPARATOR: Bytes := [COMMA, SPACE]
  /** U+2026 in UTF-8. */
  const DOTS: Bytes := [226, 128, 166]
  const ELLIPSIS: Bytes := SEPARATOR + DOTS
  /** Stripe's cap on one metadata value. */
  const VALUE_MAX: nat := 500

  // ----- rendering -----

  function Join(names: seq<Bytes>): Bytes {
    if names == [] then []
    else if |names| == 1 then names[0]
    else Join(names[..|names| - 1]) + SEPARATOR + names[|names| - 1]
  }

  lemma JoinSays(names: seq<Bytes>, name: Bytes)
    ensures Join([]) == [] && Join([name]) == name
    ensures names != [] ==> Join(names + [name]) == Join(names) + [44, 32] + name
  {
    assert (names + [name])[..|names|] == names;
  }

  /** The names joined, and room left for the ellipsis. */
  predicate Fits(names: seq<Bytes>) {
    |Join(names)| <= VALUE_MAX - |ELLIPSIS|
  }

  /** How many names are kept before the first that no longer fits. */
  function Kept(names: seq<Bytes>): (k: nat)
    ensures k <= |names|
  {
    if names == [] then 0 else
    var k := Kept(names[..|names| - 1]);
    if k == |names| - 1 && Fits(names) then |names| else k
  }

  function Render(names: seq<Bytes>): Bytes {
    if Kept(names) == |names| then Join(names) else Join(names[..Kept(names)]) + ELLIPSIS
  }

  lemma {:induction false} KeptPrefix(names: seq<Bytes>, i: nat)
    requires i <= |names|
    ensures Kept(names[..i]) == if i <= Kept(names) then i else Kept(names)
  {
    if i == |names| {
      assert names[..i] == names;
    } else {
      var init := names[..|names| - 1];
      assert init[..i] == names[..i];
      KeptPrefix(init, i);
    }
  }

  method JoinNamesForMetadata(names: seq<Bytes>) returns (out: Bytes)
    ensures out == Render(names)
  {
    out := [];
    if |names| == 0 { return; }
    var i := 0;
    while i < |names|
      invariant i <= |names| && out == Join(names[..i]) && Kept(names[..i]) == i
    {
      var next := if i > 0 then SEPARATOR + names[i] else names[i];
      assert names[..i + 1][..i] == names[..i];
      assert Join(names[..i + 1]) == out + next;
      KeptPrefix(names, i + 1);
      if |out| + |next| > VALUE_MAX - |ELLIPSIS| {
        KeptPrefix(names, i);
        out := out + ELLIPSIS;
        return;
      }
      out := out + next;
      i := i + 1;
    }
    assert names[..i] == names;
  }

  lemma {:induction false} JoinGrows(names: seq<Bytes>, i: nat)
    requires i <= |names|
    ensures |Join(names[..i])| <= |Join(names)|
  {
    if i == |names| {
      assert names[..i] == names;
    } else {
      var init := names[..|names| - 1];
      assert init[..i] == names[..i];
      JoinGrows(init, i);
    }
  }

  /** What is kept is the longest prefix whose join fits in 495 bytes: exactly the shorter ones fit too. */
  lemma {:induction false} KeptIsLongest(names: seq<Bytes>, i: nat)
    requires i <= |names|
    ensures |Join(names[..i])| <= 495 <==> i <= Kept(names)
  {
    if names == [] {
      assert names[..i] == [];
    } else {
      var init := names[..|names| - 1];
      if i < |names| {
        assert init[..i] == names[..i];
        KeptIsLongest(init, i);
        if Kept(names) == |names| { JoinGrows(names, i); }
      } else {
        assert names[..i] == names && init[..|init|] == init;
        KeptIsLongest(init, |init|);
        JoinGrows(names, |init|);
      }
    }
  }

  /** No rendered value exceeds Stripe's limit. */
  lemma RenderBounded(names: seq<Bytes>)
    ensures |Render(names)| <= 500
  {
    KeptIsLongest(names, Kept(names));
    assert names[..|names|] == names;
  }

  /** A list that fits is written whole; otherwise the longest fitting prefix and the ellipsis. */
  lemma RenderForm(names: seq<Bytes>)
    ensures |Join(names)| <= 495 ==> Render(names) == Join(names)
    ensures |Join(names)| > 495 ==>
              exists k :: 0 <= k < |names| && Render(names) == Join(names[..k]) + [44, 32, 226, 128, 166] &&
                          |Join(names[..k])| <= 495 < |Join(names[..k + 1])|
  {
    var k := Kept(names);
    KeptIsLongest(names, |names|);
    assert names[..|names|] == names;
    if !Fits(names) {
      KeptIsLongest(names, k);
      KeptIsLongest(names, k + 1);
    }
  }

  // ----- reading back: strings.Split on "," and strings.TrimSpace -----

  function Split(s: Bytes): (pieces: seq<Bytes>)
    ensures |pieces| > 0
  {
    if s == [] then [[]] else
    var pieces := Split(s[..|s| - 1]);
    var last := |pieces| - 1;
    if s[|s| - 1] == COMMA then pieces + [[]] else pieces[..last] + [pieces[last] + [s[|s| - 1]]]
  }

  // The UTF-8 encodings of a blank: Unicode's White_Space, as unicode.IsSpace has it.

  predicate IsBlank1(a: Byte) {
    9 <= a <= 13 || a == 32
  }

  predicate IsBlank2(a: Byte, b: Byte) {
    a == 0xC2 && (b == 0x85 || b == 0xA0)
  }

  predicate IsBlank3(a: Byte, b: Byte, c: Byte) {
    || (a == 0xE1 && b == 0x9A && c == 0x80)
    || (a == 0xE2 && b == 0x80 && (0x80 <= c <= 0x8A || c == 0xA8 || c == 0xA9 || c == 0xAF))
    || (a == 0xE2 && b == 0x81 && c == 0x9F)
    || (a == 0xE3 && b == 0x80 && c == 0x80)
  }

  /** How many bytes of blank s starts with, 0 for none. */
  function BlankFront(s: Bytes): (n: nat)
    ensures n <= |s|
  {
    if |s| >= 1 && IsBlank1(s[0]) then 1
    else if |s| >= 2 && IsBlank2(s[0], s[1]) then 2
    else if |s| >= 3 && IsBlank3(s[0], s[1], s[2]) then 3
    else 0
  }

  function BlankBack(s: Bytes): (n: nat)
    ensures n <= |s|
  {
    var k := |s|;
    if k >= 1 && IsBlank1(s[k - 1]) then 1
    else if k >= 2 && IsBlank2(s[k - 2], s[k - 1]) then 2
    else if k >= 3 && IsBlank3(s[k - 3], s[k - 2], s[k - 1]) then 3
    else 0
  }

  /** The UTF-8 encoding of a code point. */
  function Utf8(c: nat): (s: Bytes)
    requires c < 0x11_0000
    ensures 1 <= |s| <= 4
  {
    if c < 0x80 then [c]
    else if c < 0x800 then [0xC0 + c / 64, 0x80 + c % 64]
    else if c < 0x1_0000 then [0xE0 + c / 4096, 0x80 + c / 64 % 64, 0x80 + c % 64]
    else [0xF0 + c / 0x4_0000, 0x80 + c / 4096 % 64, 0x80 + c / 64 % 64, 0x80 + c % 64]
  }

  predicate WhiteSpace(c: nat) {
    || 9 <= c <= 13 || c == 32 || c == 0x85 || c == 0xA0 || c == 0x1680 || 0x2000 <= c <= 0x200A
    || c == 0x2028 || c == 0x2029 || c == 0x202F || c == 0x205F || c == 0x3000
  }

  /** What is trimmed in front is exactly one White_Space character, whole. */
  lemma BlankFrontIff(c: nat, rest: Bytes)
    requires c < 0x11_0000
    ensures BlankFront(Utf8(c) + rest) == if WhiteSpace(c) then |Utf8(c)| else 0
  {}

  /** And so it is at the end. */
  lemma BlankBackIff(c: nat, rest: Bytes)
    requires c < 0x11_0000
    ensures BlankBack(rest + Utf8(c)) == if WhiteSpace(c) then |Utf8(c)| else 0
  {}

  function TrimLeft(s: Bytes): Bytes {
    if BlankFront(s) > 0 then TrimLeft(s[BlankFront(s)..]) else s
  }

  function TrimRight(s: Bytes): Bytes {
    if BlankBack(s) > 0 then TrimRight(s[..|s| - BlankBack(s)]) else s
  }

  function Trim(s: Bytes): Bytes {
    TrimRight(TrimLeft(s))
  }

  function TrimAll(pieces: seq<Bytes>): (r: seq<Bytes>)
    ensures |r| == |pieces| && forall i :: 0 <= i < |r| ==> r[i] == Trim(pieces[i])
  {
    seq(|pieces|, i requires 0 <= i < |pieces| => Trim(pieces[i]))
  }

  function ReadBack(value: Bytes): seq<Bytes> {
    TrimAll(Split(value))
  }

  /** Non-empty, without commas, and neither starting nor ending with a blank of any kind. */
  predicate Plain(name: Bytes) {
    name != [] && COMMA !in name && BlankFront(name) == 0 && BlankBack(name) == 0
  }

  lemma {:induction false} SplitNoComma(a: Bytes, b: Bytes)
    requires COMMA !in b
    ensures Split(a + [COMMA] + b) == Split(a) + [b]
  {
    var s := a + [COMMA] + b;
    if b == [] {
      assert s[..|s| - 1] == a;
    } else {
      var b' := b[..|b| - 1];
      SplitNoComma(a, b');
      assert s[..|s| - 1] == a + [COMMA] + b';
      assert b' + [b[|b| - 1]] == b;
    }
  }

  lemma {:induction false} SplitSingle(b: Bytes)
    requires COMMA !in b
    ensures Split(b) == [b]
  {
    if b != [] {
      SplitSingle(b[..|b| - 1]);
      assert b[..|b| - 1] + [b[|b| - 1]] == b;
    }
  }

  lemma TrimPlain(name: Bytes)
    requires Plain(name)
    ensures Trim(name) == name && Trim([SPACE] + name) == name
  {
    assert ([SPACE] + name)[1..] == name;
  }

  lemma ReadBackSnoc(a: Bytes, name: Bytes)
    requires Plain(name)
    ensures ReadBack(a + SEPARATOR + name) == ReadBack(a) + [name]
  {
    assert a + SEPARATOR + name == a + [COMMA] + ([SPACE] + name);
    SplitNoComma(a, [SPACE] + name);
    TrimPlain(name);
  }

  ghost predicate AllPlain(names: seq<Bytes>) {
    forall i :: 0 <= i < |names| ==> Plain(names[i])
  }

  lemma ReadBackSingle(name: Bytes)
    requires Plain(name)
    ensures ReadBack(name) == [name]
  {
    SplitSingle(name);
    TrimPlain(name);
  }

  lemma AllPlainInit(names: seq<Bytes>)
    requires names != [] && AllPlain(names)
    ensures AllPlain(names[..|names| - 1]) && Plain(names[|names| - 1])
  {
    var init := names[..|names| - 1];
    forall i | 0 <= i < |init| ensures Plain(init[i]) {
      assert init[i] == names[i];
    }
  }

  lemma ReadBackStep(joined: Bytes, init: seq<Bytes>, last: Bytes, names: seq<Bytes>)
    requires ReadBack(joined) == init && Plain(last) && names == init + [last]
    ensures ReadBack(joined + SEPARATOR + last) == names
  {
    ReadBackSnoc(joined, last);
  }

  lemma {:induction false} ReadBackJoin(names: seq<Bytes>)
    requires names != [] && AllPlain(names)
    ensures ReadBack(Join(names)) == names
  {
    var init, last := names[..|names| - 1], names[|names| - 1];
    AllPlainInit(names);
    if |names| == 1 {
      ReadBackSingle(last);
    } else {
      ReadBackJoin(init);
      ReadBackStep(Join(init), init, last, names);
    }
  }

  lemma DotsArePlain()
    ensures Plain(DOTS)
  {}

  /** What a truncated value reads back as: the prefix, then the dots. */
  lemma ReadBackTruncated(prefix: Bytes)
    ensures ReadBack(prefix + ELLIPSIS) == ReadBack(prefix) + [DOTS]
  {
    DotsArePlain();
    assert prefix + ELLIPSIS == prefix + SEPARATOR + DOTS;
    ReadBackSnoc(prefix, DOTS);
  }

  /**
   * Reading a rendered list back gives the list, or the kept names followed by "…". When not even
   * the first name fits, the value is ", …" and an empty name stands in for the kept ones.
   */
  lemma RoundTrip(names: seq<Bytes>)
    requires names != [] && AllPlain(names)
    ensures var k := Kept(names);
      ReadBack(Render(names)) ==
        if k == |names| then names else (if k == 0 then [[]] else names[..k]) + [DOTS]
  {
    var k := Kept(names);
    if k == |names| {
      ReadBackJoin(names);
    } else {
      ReadBackTruncated(Join(names[..k]));
      ReadBackKept(names, k);
    }
  }

  lemma ReadBackKept(names: seq<Bytes>, k: nat)
    requires k < |names| && AllPlain(names)
    ensures ReadBack(Join(names[..k])) == if k == 0 then [[]] else names[..k]
  {
    if k == 0 {
      assert names[..0] == [] && Split([]) == [[]] && Trim([]) == [];
    } else {
      forall i | 0 <= i < k ensures Plain(names[..k][i]) { assert names[..k][i] == names[i]; }
      assert AllPlain(names[..k]);
      ReadBackJoin(names[..k]);
    }
  }

  /** The legacy customer match: some organization of the customer is the account's namespace. */
  predicate LegacyMatch(organizations: Bytes, namespace: Bytes) {
    namespace in ReadBack(organizations)
  }

  /** A namespace is matched exactly when it is among the names that were kept. */
  lemma LegacyMatchIffKept(names: seq<Bytes>, namespace: Bytes)
    requires AllPlain(names) && Plain(namespace) && namespace != DOTS
    ensures LegacyMatch(Render(names), namespace) <==> namespace in names[..Kept(names)]
  {
    if names == [] {
      assert Split([]) == [[]];
    } else {
      RoundTrip(names);
      var k := Kept(names);
      if k == |names| { assert names[..k] == names; }
    }
  }
}
