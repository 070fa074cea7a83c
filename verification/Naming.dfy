/** Names, their byte-level hash preimages, and why two names never share a record. */
module Naming {
  import opened Prelude

  type Byte = x: int | 0 <= x < 256

  /**
   * What records, listings, auctions and offers are keyed by: a name as a path, or the bare digest
   * under which the chain stores one. The name-keyed registry uses paths only; the two agree up to
   * a hash collision.
   */
  datatype NameId = TopLevel(name: string, tld: string) | Subdomain(parent: NameId, name: string) | Digest(bytes: seq<Byte>)

  const NAME_MAX_LEN := 63
  const MAX_SUBDOMAIN_DEPTH := 4
  const ALLOWED_TLDS: seq<string> := ["sol", "chain", "web3"]

  predicate AllowedTld(tld: string) {
    tld in ALLOWED_TLDS
  }

  function Nesting(id: NameId): nat {
    match id
    case TopLevel(_, _) => 0
    case Subdomain(p, _) => 1 + Nesting(p)
    case Digest(_) => 0
  }

  function Tld(id: NameId): string {
    match id
    case TopLevel(_, tld) => tld
    case Subdomain(p, _) => Tld(p)
    case Digest(_) => ""
  }

  /** `a` is a proper ancestor of `id`. */
  predicate Above(a: NameId, id: NameId) {
    id.Subdomain? && (a == id.parent || Above(a, id.parent))
  }

  lemma AncestorsAreShallower(a: NameId, id: NameId)
    requires Above(a, id)
    ensures Nesting(a) < Nesting(id)
  {
  }

  // ----- labels

  predicate EmojiChar(c: char) {
    var cp := c as int;
    || 0x1F300 <= cp <= 0x1FAFF
    || 0x2600 <= cp <= 0x27BF
    || 0x1F1E6 <= cp <= 0x1F1FF
    || 0x2300 <= cp <= 0x23FF
    || 0x2B00 <= cp <= 0x2BFF
    || cp == 0x200D
    || cp == 0x20E3
    || cp == 0xFE0F
  }

  /** The TypeScript client's copy of the emoji ranges, on code points. */
  predicate TsEmojiChar(cp: int) {
    || (cp >= 0x1F300 && cp <= 0x1FAFF)
    || (cp >= 0x2600 && cp <= 0x27BF)
    || (cp >= 0x1F1E6 && cp <= 0x1F1FF)
    || (cp >= 0x2300 && cp <= 0x23FF)
    || (cp >= 0x2B00 && cp <= 0x2BFF)
    || cp == 0x200D || cp == 0x20E3 || cp == 0xFE0F
  }

  /** Program and client allow the same emoji. */
  lemma EmojiMirrored(c: char)
    ensures EmojiChar(c) <==> TsEmojiChar(c as int)
  {
  }

  predicate LabelChar(c: char) {
    'a' <= c <= 'z' || '0' <= c <= '9' || c == '-' || EmojiChar(c)
  }

  /** UTF-8, section 3 of RFC 3629. */
  function Utf8Char(c: char): seq<Byte> {
    var cp := c as int;
    if cp < 0x80 then [cp]
    else if cp < 0x800 then [0xC0 + cp / 64, 0x80 + cp % 64]
    else if cp < 0x1_0000 then [0xE0 + cp / 4096, 0x80 + cp / 64 % 64, 0x80 + cp % 64]
    else [0xF0 + cp / 262144, 0x80 + cp / 4096 % 64, 0x80 + cp / 64 % 64, 0x80 + cp % 64]
  }

  function Utf8(s: string): seq<Byte> {
    if s == "" then [] else Utf8Char(s[0]) + Utf8(s[1..])
  }

  predicate ValidLabel(s: string) {
    && 1 <= |Utf8(s)| <= NAME_MAX_LEN
    && (forall i :: 0 <= i < |s| ==> LabelChar(s[i]))
    && s != "" && s[0] != '-' && s[|s| - 1] != '-'
    && (forall i :: 0 < i < |s| ==> !(s[i - 1] == '-' && s[i] == '-'))
  }

  predicate ValidName(id: NameId) {
    match id
    case TopLevel(name, tld) => ValidLabel(name) && AllowedTld(tld)
    case Subdomain(p, name) => ValidName(p) && ValidLabel(name)
    case Digest(_) => false
  }

  datatype NameError = InvalidNameLength | InvalidNameCharacter | InvalidNameHyphen

  /** The program's label check: one pass with mutable flags. */
  method ValidateName(name: string) returns (err: Option<NameError>)
    ensures err.None? <==> ValidLabel(name)
    ensures err == Some(InvalidNameLength) <==> !(1 <= |Utf8(name)| <= NAME_MAX_LEN)
  {
    var len := |Utf8(name)|;
    if !(1 <= len <= NAME_MAX_LEN) { return Some(InvalidNameLength); }
    var first: Option<char> := None;
    var last := '\0';
    var prevHyphen := false;
    for i := 0 to |name|
      invariant first == if i == 0 then None else Some(name[0])
      invariant i > 0 ==> last == name[i - 1]
      invariant prevHyphen <==> i > 0 && name[i - 1] == '-'
      invariant forall j :: 0 <= j < i ==> LabelChar(name[j])
      invariant forall j :: 0 < j < i ==> !(name[j - 1] == '-' && name[j] == '-')
    {
      var c := name[i];
      if first.None? { first := Some(c); }
      last := c;
      if !('a' <= c <= 'z' || '0' <= c <= '9' || c == '-' || EmojiChar(c)) { return Some(InvalidNameCharacter); }
      if c == '-' {
        if prevHyphen { return Some(InvalidNameHyphen); }
        prevHyphen := true;
      } else {
        prevHyphen := false;
      }
    }
    if first.value == '-' || last == '-' { return Some(InvalidNameHyphen); }
    return None;
  }

  /** The TypeScript client's check: end hyphens first, then the characters. */
  method ValidateLabel(name: string) returns (ok: bool)
    ensures ok <==> ValidLabel(name)
  {
    if |Utf8(name)| < 1 || |Utf8(name)| > NAME_MAX_LEN { return false; }
    if name[0] == '-' || name[|name| - 1] == '-' { return false; }
    var prevHyphen := false;
    for i := 0 to |name|
      invariant prevHyphen <==> i > 0 && name[i - 1] == '-'
      invariant forall j :: 0 <= j < i ==> LabelChar(name[j])
      invariant forall j :: 0 < j < i ==> !(name[j - 1] == '-' && name[j] == '-')
    {
      var c := name[i];
      var asciiOk := c == '-' || 'a' <= c <= 'z' || '0' <= c <= '9';
      if !asciiOk && !TsEmojiChar(c as int) { return false; }
      if c == '-' {
        if prevHyphen { return false; }
        prevHyphen := true;
      } else {
        prevHyphen := false;
      }
    }
    return true;
  }

  // ----- labels by their parts

  /** The pieces between hyphens. */
  function HyphenParts(s: string): (parts: seq<string>)
    ensures parts != []
  {
    if s == "" then [""]
    else if s[0] == '-' then [""] + HyphenParts(s[1..])
    else var rest := HyphenParts(s[1..]); [[s[0]] + rest[0]] + rest[1..]
  }

  predicate PlainPart(part: string) {
    forall i :: 0 <= i < |part| ==> 'a' <= part[i] <= 'z' || '0' <= part[i] <= '9' || EmojiChar(part[i])
  }

  /** No hyphen ends the text or follows another. */
  predicate HyphensInside(s: string) {
    && (s != "" ==> s[|s| - 1] != '-')
    && (forall i :: 0 < i < |s| ==> !(s[i - 1] == '-' && s[i] == '-'))
    && (forall i :: 0 <= i < |s| ==> LabelChar(s[i]))
  }

  /** All pieces are plain, and only the first may be empty. */
  predicate LaterPartsFull(parts: seq<string>) {
    (forall i :: 0 <= i < |parts| ==> PlainPart(parts[i])) && (forall i :: 1 <= i < |parts| ==> parts[i] != "")
  }

  lemma HyphensInsideRest(c: char, rest: string)
    requires HyphensInside([c] + rest)
    ensures LabelChar(c) && HyphensInside(rest) && (c == '-' ==> rest != "" && rest[0] != '-')
  {
    var s := [c] + rest;
    assert s[0] == c && LabelChar(s[0]);
    assert forall i :: 0 <= i < |rest| ==> s[i + 1] == rest[i];
    forall i | 0 <= i < |rest| ensures LabelChar(rest[i]) {
      assert LabelChar(s[i + 1]);
    }
    forall i | 0 < i < |rest| ensures !(rest[i - 1] == '-' && rest[i] == '-') {
      assert !(s[i] == '-' && s[i + 1] == '-');
    }
    if c == '-' && rest != "" {
      assert !(s[0] == '-' && s[1] == '-');
    }
  }

  lemma HyphensInsideCons(c: char, rest: string)
    requires LabelChar(c) && HyphensInside(rest) && (c == '-' ==> rest != "" && rest[0] != '-')
    ensures HyphensInside([c] + rest)
  {
    var s := [c] + rest;
    assert s[0] == c;
    assert forall i :: 0 < i < |s| ==> s[i] == rest[i - 1];
    forall i | 0 < i < |s| ensures !(s[i - 1] == '-' && s[i] == '-') {
      assert i > 1 ==> !(rest[i - 2] == '-' && rest[i - 1] == '-');
    }
  }

  lemma {:induction false} PartsExact(s: string)
    ensures LaterPartsFull(HyphenParts(s)) <==> HyphensInside(s)
    ensures HyphenParts(s)[0] == "" <==> s == "" || s[0] == '-'
  {
    if s != "" {
      var c, rest := s[0], s[1..];
      assert s == [c] + rest;
      PartsExact(rest);
      if HyphensInside(s) {
        HyphensInsideRest(c, rest);
      }
      if LabelChar(c) && HyphensInside(rest) && (c == '-' ==> rest != "" && rest[0] != '-') {
        HyphensInsideCons(c, rest);
      }
      PartsOf(c, HyphenParts(rest), HyphenParts(s));
    }
  }

  lemma PartsOf(c: char, rest: seq<string>, parts: seq<string>)
    requires rest != [] && parts == if c == '-' then [""] + rest else [[c] + rest[0]] + rest[1..]
    ensures LaterPartsFull(parts) <==> LaterPartsFull(rest) && LabelChar(c) && (c == '-' ==> rest[0] != "")
  {
    if c == '-' {
      assert forall i :: 0 <= i < |rest| ==> parts[i + 1] == rest[i];
      if LaterPartsFull(parts) {
        assert parts[1] == rest[0];
        forall i | 0 <= i < |rest| ensures PlainPart(rest[i]) && (i > 0 ==> rest[i] != "") {
          assert PlainPart(parts[i + 1]);
        }
      }
    } else {
      assert parts[0] == [c] + rest[0];
      assert forall i :: 1 <= i < |rest| ==> parts[i] == rest[i];
      PlainCons(c, rest[0]);
    }
  }

  lemma PlainCons(c: char, part: string)
    ensures PlainPart([c] + part) <==> PlainPart(part) && LabelChar(c) && c != '-'
  {
    var s := [c] + part;
    assert forall i :: 0 <= i < |part| ==> s[i + 1] == part[i];
    assert s[0] == c;
    if PlainPart(s) {
      forall i | 0 <= i < |part| ensures 'a' <= part[i] <= 'z' || '0' <= part[i] <= '9' || EmojiChar(part[i]) {
        assert part[i] == s[i + 1];
      }
    }
  }

  /** A label is valid exactly when it has 1 to 63 bytes and falls, at its hyphens, into non-empty pieces of letters, digits and emoji. */
  lemma ValidLabelParts(s: string)
    ensures ValidLabel(s)
            <==> 1 <= |Utf8(s)| <= 63 && forall i :: 0 <= i < |HyphenParts(s)| ==> HyphenParts(s)[i] != "" && PlainPart(HyphenParts(s)[i])
  {
    PartsExact(s);
  }

  // ----- UTF-8 is injective and keeps '.' apart

  const DOT: Byte := 46

  /** One to four bytes, by code point; only a single byte is below 0x80. */
  lemma Utf8Widths(c: char)
    ensures |Utf8Char(c)| == (if c as int <= 127 then 1 else if c as int <= 2047 then 2 else if c as int <= 65535 then 3 else 4)
    ensures forall i :: 0 <= i < |Utf8Char(c)| ==> (Utf8Char(c)[i] < 0x80 <==> |Utf8Char(c)| == 1)
    ensures |Utf8Char(c)| == 1 ==> Utf8Char(c) == [c as int]
  {
  }

  lemma Utf8CharPrefixFree(c: char, x: seq<Byte>, d: char, y: seq<Byte>)
    requires Utf8Char(c) + x == Utf8Char(d) + y
    ensures c == d && x == y
  {
    var s := Utf8Char(c) + x;
    assert s[0] == Utf8Char(c)[0] == Utf8Char(d)[0];
    SameLead(c, d);
    var n := |Utf8Char(c)|;
    assert Utf8Char(c) == s[..n] == Utf8Char(d);
    SameBytes(c, d);
    assert x == s[n..] == y;
  }

  lemma SameLead(c: char, d: char)
    requires Utf8Char(c)[0] == Utf8Char(d)[0]
    ensures |Utf8Char(c)| == |Utf8Char(d)|
  {
  }

  function CodePoint(bytes: seq<Byte>): int {
    match |bytes|
    case 1 => bytes[0] as int
    case 2 => ((bytes[0] as int) - 0xC0) * 64 + ((bytes[1] as int) - 0x80)
    case 3 => ((bytes[0] as int) - 0xE0) * 4096 + ((bytes[1] as int) - 0x80) * 64 + ((bytes[2] as int) - 0x80)
    case 4 => ((bytes[0] as int) - 0xF0) * 262144 + ((bytes[1] as int) - 0x80) * 4096 + ((bytes[2] as int) - 0x80) * 64 + ((bytes[3] as int) - 0x80)
    case _ => 0
  }

  lemma SixBits(x: nat)
    ensures x == x / 64 * 64 + x % 64
    ensures x / 64 / 64 == x / 4096 && x / 4096 / 64 == x / 262144
  {
  }

  lemma CodePointInverts(c: char)
    ensures CodePoint(Utf8Char(c)) == c as int
  {
    var cp := c as int;
    SixBits(cp);
    SixBits(cp / 64);
    SixBits(cp / 4096);
  }

  lemma SameBytes(c: char, d: char)
    requires Utf8Char(c) == Utf8Char(d)
    ensures c == d
  {
    CodePointInverts(c);
    CodePointInverts(d);
  }

  lemma {:induction false} Utf8Injective(a: string, b: string)
    requires Utf8(a) == Utf8(b)
    ensures a == b
  {
    if a == "" || b == "" {
    } else {
      Utf8CharPrefixFree(a[0], Utf8(a[1..]), b[0], Utf8(b[1..]));
      Utf8Injective(a[1..], b[1..]);
    }
  }

  /** Bytes of a label are never '.' and never zero. */
  lemma {:induction false} LabelBytes(s: string)
    requires forall i :: 0 <= i < |s| ==> LabelChar(s[i])
    ensures DOT !in Utf8(s) && 0 !in Utf8(s)
  {
    if s != "" {
      LabelBytes(s[1..]);
      assert LabelChar(s[0]);
      LabelCharBytes(s[0]);
    }
  }

  lemma LabelCharBytes(c: char)
    requires LabelChar(c)
    ensures forall b :: b in Utf8Char(c) ==> b == c as int || b >= 0x80
    ensures DOT !in Utf8Char(c) && 0 !in Utf8Char(c)
  {
  }

  function FirstDot(s: seq<Byte>): nat {
    if s == [] || s[0] == DOT then 0 else 1 + FirstDot(s[1..])
  }

  lemma {:induction false} FirstDotAfter(a: seq<Byte>, x: seq<Byte>)
    requires DOT !in a
    ensures FirstDot(a + [DOT] + x) == |a|
  {
    if a == [] {
      assert (a + [DOT] + x)[0] == DOT;
    } else {
      assert (a + [DOT] + x)[0] == a[0] && (a + [DOT] + x)[1..] == a[1..] + [DOT] + x;
      FirstDotAfter(a[1..], x);
    }
  }

  /** The first '.' splits a top-level preimage. */
  lemma SplitAtDot(a: seq<Byte>, x: seq<Byte>, b: seq<Byte>, y: seq<Byte>)
    requires DOT !in a && DOT !in b
    requires a + [DOT] + x == b + [DOT] + y
    ensures a == b && x == y
  {
    var s := a + [DOT] + x;
    FirstDotAfter(a, x);
    FirstDotAfter(b, y);
    assert a == s[..|a|] == b;
    assert x == s[|a| + 1..] == y;
  }

  // ----- the recursive hash

  type Keccak = seq<Byte> -> seq<Byte>

  predicate Digest32(d: seq<Byte>) {
    |d| == 32
  }

  ghost predicate FixedWidth(keccak: Keccak) {
    forall bytes :: Digest32(keccak(bytes))
  }

  function TopLevelPreimage(name: string, tld: string): seq<Byte> {
    Utf8(name) + [DOT] + Utf8(tld)
  }

  function SubdomainPreimage(parentHash: seq<Byte>, name: string): seq<Byte> {
    [0] + parentHash + Utf8(name)
  }

  function Preimage(keccak: Keccak, id: NameId): seq<Byte>
    decreases id, 0
  {
    match id
    case TopLevel(name, tld) => TopLevelPreimage(name, tld)
    case Subdomain(p, name) => SubdomainPreimage(NameHash(keccak, p), name)
    case Digest(_) => []
  }

  /** The 32-byte record key of a name. */
  function NameHash(keccak: Keccak, id: NameId): seq<Byte>
    decreases id, 1
  {
    if id.Digest? then id.bytes else keccak(Preimage(keccak, id))
  }

  /** Two names whose different preimages have one digest. */
  predicate Collide(keccak: Keccak, a: NameId, b: NameId) {
    Preimage(keccak, a) != Preimage(keccak, b) && keccak(Preimage(keccak, a)) == keccak(Preimage(keccak, b))
  }

  predicate SelfOrAbove(a: NameId, id: NameId) {
    a == id || Above(a, id)
  }

  /** Two valid names with one key, at any depths, collide themselves or through ancestors. */
  lemma {:induction false} ClashingAncestors(keccak: Keccak, a: NameId, b: NameId) returns (p: NameId, q: NameId)
    requires FixedWidth(keccak)
    requires ValidName(a) && ValidName(b) && a != b
    requires NameHash(keccak, a) == NameHash(keccak, b)
    ensures Collide(keccak, p, q) && SelfOrAbove(p, a) && SelfOrAbove(q, b)
  {
    p, q := a, b;
    if Preimage(keccak, a) == Preimage(keccak, b) {
      SamePreimage(keccak, a, b);
      p, q := ClashingAncestors(keccak, a.parent, b.parent);
    }
  }

  /** Hence they exhibit two different byte strings with one keccak digest. */
  lemma DistinctNamesCollide(keccak: Keccak, a: NameId, b: NameId) returns (x: seq<Byte>, y: seq<Byte>)
    requires FixedWidth(keccak)
    requires ValidName(a) && ValidName(b) && a != b
    requires NameHash(keccak, a) == NameHash(keccak, b)
    ensures x != y && keccak(x) == keccak(y)
  {
    var p, q := ClashingAncestors(keccak, a, b);
    x, y := Preimage(keccak, p), Preimage(keccak, q);
  }

  /** Equal preimages peel off one level: same kind, same label, and parents with equal keys. */
  lemma SamePreimage(keccak: Keccak, a: NameId, b: NameId)
    requires FixedWidth(keccak)
    requires ValidName(a) && ValidName(b)
    requires Preimage(keccak, a) == Preimage(keccak, b)
    ensures a.Subdomain? <==> b.Subdomain?
    ensures a.TopLevel? ==> a == b
    ensures a.Subdomain? ==> a.name == b.name && NameHash(keccak, a.parent) == NameHash(keccak, b.parent)
  {
    match (a, b)
    case (TopLevel(l, t), TopLevel(l', t')) =>
      LabelBytes(l);
      LabelBytes(l');
      SplitAtDot(Utf8(l), Utf8(t), Utf8(l'), Utf8(t'));
      Utf8Injective(l, l');
      Utf8Injective(t, t');
    case (Subdomain(p, l), Subdomain(p', l')) =>
      var h, h' := NameHash(keccak, p), NameHash(keccak, p');
      assert Digest32(h) && Digest32(h');
      var x, x' := Preimage(keccak, a), Preimage(keccak, b);
      assert x[1..33] == h && x'[1..33] == h';
      assert x[33..] == Utf8(l) && x'[33..] == Utf8(l');
      Utf8Injective(l, l');
    case (TopLevel(l, t), Subdomain(p, l')) =>
      TopLevelStartsNonZero(l, t);
    case (Subdomain(p, l'), TopLevel(l, t)) =>
      TopLevelStartsNonZero(l, t);
  }

  lemma TopLevelStartsNonZero(name: string, tld: string)
    requires ValidLabel(name)
    ensures TopLevelPreimage(name, tld)[0] != 0
  {
    LabelBytes(name);
    assert Utf8(name)[0] in Utf8(name);
  }

  /**
   * `tokenize_name` and `set_reverse` hash an unchecked `name` under the record's own TLD. Matching
   * bytes still force the name to be the registered label.
   */
  lemma UncheckedNameMatches(name: string, registered: string, tld: string)
    requires TopLevelPreimage(name, tld) == TopLevelPreimage(registered, tld)
    ensures name == registered
  {
    var s := TopLevelPreimage(name, tld);
    var n := |s| - |Utf8(tld)| - 1;
    assert Utf8(name) == s[..n] && Utf8(registered) == s[..n];
    Utf8Injective(name, registered);
  }

  /** No validated `name.tld` hashes the bytes of a subdomain, so renewals cannot target one. */
  lemma TopLevelNeverSubdomain(keccak: Keccak, name: string, tld: string, sub: NameId)
    requires ValidLabel(name) && sub.Subdomain?
    ensures TopLevelPreimage(name, tld) != Preimage(keccak, sub)
  {
    TopLevelStartsNonZero(name, tld);
  }
}
