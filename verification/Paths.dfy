/** Dotted names as text: parsing, printing, and the client folds that turn a path into a record key. */
module Paths {
  import opened Prelude
  import opened Naming

  // ----- text

  /** `split('.')`: never empty. */
  function SplitDots(s: string): (parts: seq<string>)
    ensures parts != []
  {
    if s == "" then [""]
    else if s[0] == '.' then [""] + SplitDots(s[1..])
    else var rest := SplitDots(s[1..]); [[s[0]] + rest[0]] + rest[1..]
  }

  function JoinDots(parts: seq<string>): string {
    if parts == [] then "" else if |parts| == 1 then parts[0] else parts[0] + "." + JoinDots(parts[1..])
  }

  predicate Dotless(s: string) {
    '.' !in s
  }

  /** `lastIndexOf('.')`. */
  function LastDot(s: string): (i: int)
    ensures -1 <= i < |s|
    ensures i >= 0 ==> s[i] == '.'
  {
    if s == "" then -1 else if s[|s| - 1] == '.' then |s| - 1 else LastDot(s[..|s| - 1])
  }

  lemma {:induction false} LastDotBefore(head: string, tail: string)
    requires Dotless(tail)
    ensures LastDot(head + "." + tail) == |head|
  {
    var s := head + "." + tail;
    if tail == "" {
      assert s[|s| - 1] == '.';
    } else {
      var t := tail[..|tail| - 1];
      assert s[|s| - 1] == tail[|tail| - 1];
      assert tail[|tail| - 1] in tail;
      assert s[..|s| - 1] == head + "." + t;
      LastDotBefore(head, t);
    }
  }

  lemma DotlessConcat(a: string, b: string)
    ensures Dotless(a + b) <==> Dotless(a) && Dotless(b)
  {
  }

  lemma {:induction false} NoLastDot(s: string)
    ensures LastDot(s) < 0 <==> Dotless(s)
    ensures LastDot(s) >= 0 ==> Dotless(s[LastDot(s) + 1..])
  {
    if s == "" {
    } else if s[|s| - 1] == '.' {
      assert s[|s| - 1] in s && s[|s|..] == "";
    } else {
      var t := s[..|s| - 1];
      NoLastDot(t);
      var last := [s[|s| - 1]];
      assert s == t + last;
      DotlessConcat(t, last);
      if LastDot(t) >= 0 {
        assert s[LastDot(s) + 1..] == t[LastDot(t) + 1..] + last;
        DotlessConcat(t[LastDot(t) + 1..], last);
      }
    }
  }

  lemma {:induction false} SplitDotless(s: string)
    requires Dotless(s)
    ensures SplitDots(s) == [s]
  {
    if s != "" {
      assert s[0] in s;
      SplitDotless(s[1..]);
      assert [s[0]] + s[1..] == s;
    }
  }

  lemma {:induction false} SplitAppend(s: string, tail: string)
    requires Dotless(tail)
    ensures SplitDots(s + "." + tail) == SplitDots(s) + [tail]
  {
    var t := s + "." + tail;
    if s == "" {
      assert t[1..] == tail;
      SplitDotless(tail);
    } else {
      assert t[0] == s[0] && t[1..] == s[1..] + "." + tail;
      SplitAppend(s[1..], tail);
    }
  }

  lemma {:induction false} SplitPrepend(front: string, s: string)
    requires Dotless(front)
    ensures SplitDots(front + "." + s) == [front] + SplitDots(s)
  {
    var t := front + "." + s;
    if front == "" {
      assert t[0] == '.' && t[1..] == s;
    } else {
      assert t[0] == front[0] && t[1..] == front[1..] + "." + s;
      assert front[0] in front;
      SplitPrepend(front[1..], s);
      assert [front[0]] + front[1..] == front;
    }
  }

  lemma {:induction false} SplitJoin(parts: seq<string>)
    requires parts != [] && forall i :: 0 <= i < |parts| ==> Dotless(parts[i])
    ensures SplitDots(JoinDots(parts)) == parts
  {
    if |parts| == 1 {
      SplitDotless(parts[0]);
    } else {
      SplitJoin(parts[1..]);
      SplitPrepend(parts[0], JoinDots(parts[1..]));
    }
  }

  lemma {:induction false} JoinSplit(s: string)
    ensures JoinDots(SplitDots(s)) == s
  {
    if s != "" {
      JoinSplit(s[1..]);
      var rest := SplitDots(s[1..]);
      if s[0] == '.' {
        assert ([""] + rest)[1..] == rest;
      } else {
        assert ([[s[0]] + rest[0]] + rest[1..])[1..] == rest[1..];
      }
    }
  }

  // ----- parsing and printing

  datatype Path = Path(labels: seq<string>, tld: string)

  /** The text carries an explicit, accepted TLD. */
  predicate ExplicitTld(text: string) {
    LastDot(text) > 0 && AllowedTld(text[LastDot(text) + 1..])
  }

  function StripDot(s: string): string {
    if s != "" && s[0] == '.' then s[1..] else s
  }

  predicate ValidLabels(labels: seq<string>) {
    forall i :: 0 <= i < |labels| ==> ValidLabel(labels[i])
  }

  /** The text without its TLD suffix, and the TLD it implies. */
  function Rest(text: string): string {
    if ExplicitTld(text) then text[..LastDot(text)] else text
  }

  function OwnTld(text: string): string {
    if ExplicitTld(text) then text[LastDot(text) + 1..] else "sol"
  }

  /** What a normalised text means: leaf-first labels and a TLD, or nothing. */
  function ParsePath(text: string, override: Option<string>): Option<Path> {
    var tld := if override.Some? && override.value != "" then StripDot(override.value) else OwnTld(text);
    var labels := SplitDots(Rest(text));
    if AllowedTld(tld) && |labels| - 1 <= MAX_SUBDOMAIN_DEPTH && ValidLabels(labels) then Some(Path(labels, tld)) else None
  }

  /** The TypeScript parser, on text that is already trimmed, NFKC-normalised and lower-cased. */
  method ParsePathText(text: string, override: Option<string>) returns (r: Option<Path>)
    ensures r == ParsePath(text, override)
  {
    var rest := text;
    var tld := "sol";
    var dot := LastDot(text);
    if dot > 0 && AllowedTld(text[dot + 1..]) {
      rest := text[..dot];
      tld := text[dot + 1..];
    }
    assert rest == Rest(text) && tld == OwnTld(text) && AllowedTld(tld);
    if override.Some? && override.value != "" {
      tld := StripDot(override.value);
      if !AllowedTld(tld) { return None; }
    }
    var labels := SplitDots(rest);
    if |labels| - 1 > MAX_SUBDOMAIN_DEPTH { return None; }
    for i := 0 to |labels|
      invariant forall j :: 0 <= j < i ==> ValidLabel(labels[j])
    {
      var ok := ValidateLabel(labels[i]);
      if !ok { return None; }
    }
    return Some(Path(labels, tld));
  }

  function Print(p: Path): string {
    JoinDots(p.labels) + "." + p.tld
  }

  predicate ValidPath(p: Path) {
    1 <= |p.labels| <= MAX_SUBDOMAIN_DEPTH + 1 && ValidLabels(p.labels) && AllowedTld(p.tld)
  }

  lemma LabelDotless(s: string)
    requires ValidLabel(s)
    ensures Dotless(s)
  {
  }

  lemma TldDotless(tld: string)
    requires AllowedTld(tld)
    ensures Dotless(tld)
  {
  }

  /** Where the TLD of a printed path sits. */
  lemma PrintedTld(p: Path)
    requires ValidPath(p)
    ensures LastDot(Print(p)) == |JoinDots(p.labels)| > 0
    ensures Print(p)[..LastDot(Print(p))] == JoinDots(p.labels) && Print(p)[LastDot(Print(p)) + 1..] == p.tld
  {
    var body := JoinDots(p.labels);
    TldDotless(p.tld);
    LastDotBefore(body, p.tld);
    assert ValidLabel(p.labels[0]);
    JoinNonEmpty(p.labels);
  }

  /** Printing a path and parsing it back returns the same labels and TLD. */
  lemma ParsePrint(p: Path)
    requires ValidPath(p)
    ensures ExplicitTld(Print(p))
    ensures ParsePath(Print(p), None) == Some(p)
  {
    PrintedTld(p);
    forall i | 0 <= i < |p.labels| ensures Dotless(p.labels[i]) {
      LabelDotless(p.labels[i]);
    }
    SplitJoin(p.labels);
  }

  lemma JoinNonEmpty(parts: seq<string>)
    requires parts != [] && parts[0] != ""
    ensures JoinDots(parts) != ""
  {
  }

  lemma PrintedText(text: string)
    ensures JoinDots(SplitDots(Rest(text))) == Rest(text)
    ensures ExplicitTld(text) ==> Rest(text) + "." + OwnTld(text) == text
  {
    JoinSplit(Rest(text));
    if ExplicitTld(text) {
      var dot := LastDot(text);
      assert text == text[..dot] + [text[dot]] + text[dot + 1..];
    }
  }

  /** Every accepted text denotes a valid path, and prints back to itself once its TLD is written out. */
  lemma PrintParse(text: string)
    requires ParsePath(text, None).Some?
    ensures var p := ParsePath(text, None).value;
            && ValidPath(p)
            && Print(p) == (if ExplicitTld(text) then text else text + "." + "sol")
  {
    PrintedText(text);
  }

  /** An allowed TLD given separately, with or without a leading dot, replaces the text's own; any other is refused, and an empty one ignored. */
  lemma ParseOverride(p: Path, tld: string)
    requires ValidPath(p)
    ensures AllowedTld(tld) ==> ParsePath(Print(p), Some(tld)) == ParsePath(Print(p), Some("." + tld)) == Some(Path(p.labels, tld))
    ensures tld != "" && !AllowedTld(tld) && tld[0] != '.' ==> ParsePath(Print(p), Some(tld)).None?
    ensures ParsePath(Print(p), Some("")) == Some(p)
  {
    ParsePrint(p);
    if AllowedTld(tld) {
      TldDotless(tld);
      assert ("." + tld)[1..] == tld;
    }
  }

  lemma {:induction false} JoinLast(labels: seq<string>)
    requires |labels| > 1
    ensures JoinDots(labels) == JoinDots(labels[..|labels| - 1]) + "." + labels[|labels| - 1]
  {
    var init := labels[..|labels| - 1];
    if |labels| == 2 {
      assert init == [labels[0]] && labels[1..] == [labels[1]];
    } else {
      JoinLast(labels[1..]);
      assert labels[1..][..|labels| - 2] == init[1..];
    }
  }

  lemma TldAfterDot(init: string, last: string)
    requires Dotless(last) && init != ""
    ensures ExplicitTld(init + "." + last) <==> last in ["sol", "chain", "web3"]
  {
    LastDotBefore(init, last);
    assert (init + "." + last)[|init| + 1..] == last;
  }

  lemma SingleHasNoTld(name: string)
    requires Dotless(name)
    ensures !ExplicitTld(name)
  {
    NoLastDot(name);
  }

  /** A text of several labels has an explicit TLD exactly when its last piece is one; a single label never has. */
  lemma JoinedTld(labels: seq<string>)
    requires labels != [] && labels[0] != "" && Dotless(labels[|labels| - 1])
    ensures ExplicitTld(JoinDots(labels)) <==> |labels| > 1 && labels[|labels| - 1] in ["sol", "chain", "web3"]
  {
    if |labels| == 1 {
      SingleHasNoTld(labels[0]);
    } else {
      var init := labels[..|labels| - 1];
      JoinLast(labels);
      JoinNonEmpty(init);
      TldAfterDot(JoinDots(init), labels[|labels| - 1]);
    }
  }

  /** Labels alone mean a path under `.sol`, unless the last of several is itself a TLD. */
  lemma ParseBare(labels: seq<string>)
    requires ValidPath(Path(labels, "sol")) && (|labels| == 1 || labels[|labels| - 1] !in ["sol", "chain", "web3"])
    ensures ParsePath(JoinDots(labels), None) == Some(Path(labels, "sol"))
  {
    forall i | 0 <= i < |labels| ensures Dotless(labels[i]) {
      LabelDotless(labels[i]);
    }
    SplitJoin(labels);
    JoinedTld(labels);
    assert AllowedTld("sol");
  }

  // ----- from paths to record keys

  function IdOf(labels: seq<string>, tld: string): (id: NameId)
    requires labels != []
    ensures Nesting(id) == |labels| - 1
  {
    if |labels| == 1 then TopLevel(labels[0], tld) else Subdomain(IdOf(labels[1..], tld), labels[0])
  }

  datatype NameInfo = NameInfo(hash: seq<Byte>, parentHash: Option<seq<Byte>>, depth: nat)

  /** The TypeScript subdomain hash, assembled in a byte buffer. */
  method ComputeSubdomainHash(keccak: Keccak, parentHash: seq<Byte>, text: string) returns (h: seq<Byte>)
    ensures h == keccak(SubdomainPreimage(parentHash, text))
  {
    var textBytes := Utf8(text);
    var w := |parentHash|;
    var buf := new Byte[1 + w + |textBytes|](_ => 0);
    buf[0] := 0;
    for i := 0 to w
      invariant buf[0] == 0
      invariant forall j :: 0 <= j < i ==> buf[1 + j] == parentHash[j]
    {
      buf[1 + i] := parentHash[i];
    }
    for i := 0 to |textBytes|
      invariant buf[0] == 0
      invariant forall j :: 1 <= j < 1 + w ==> buf[j] == parentHash[j - 1]
      invariant forall j :: 1 + w <= j < 1 + w + i ==> buf[j] == textBytes[j - 1 - w]
    {
      buf[1 + w + i] := textBytes[i];
    }
    assert buf[..] == SubdomainPreimage(parentHash, text);
    return keccak(buf[..]);
  }

  /** One step of the folds: hashing in the next label towards the leaf. */
  lemma HashStep(keccak: Keccak, labels: seq<string>, tld: string, i: nat)
    requires i < |labels| - 1
    ensures NameHash(keccak, IdOf(labels[i..], tld)) == keccak(SubdomainPreimage(NameHash(keccak, IdOf(labels[i + 1..], tld)), labels[i]))
  {
    assert labels[i..][1..] == labels[i + 1..] && labels[i..][0] == labels[i];
  }

  /** The TypeScript fold, root first. */
  method ComputeNameInfo(keccak: Keccak, path: Path) returns (info: NameInfo)
    requires path.labels != []
    ensures info.hash == NameHash(keccak, IdOf(path.labels, path.tld))
    ensures info.parentHash == if |path.labels| == 1 then None else Some(NameHash(keccak, IdOf(path.labels[1..], path.tld)))
    ensures info.depth == Nesting(IdOf(path.labels, path.tld))
  {
    var labels := path.labels;
    var n := |labels|;
    var hash := keccak(TopLevelPreimage(labels[n - 1], path.tld));
    var parentHash: Option<seq<Byte>> := None;
    var i := n - 2;
    while i >= 0
      invariant -1 <= i <= n - 2
      invariant hash == NameHash(keccak, IdOf(labels[i + 1..], path.tld))
      invariant parentHash == if i == n - 2 then None else Some(NameHash(keccak, IdOf(labels[i + 2..], path.tld)))
      decreases i
    {
      parentHash := Some(hash);
      HashStep(keccak, labels, path.tld, i);
      hash := ComputeSubdomainHash(keccak, hash, labels[i]);
      i := i - 1;
    }
    assert labels[0..] == labels;
    return NameInfo(hash, parentHash, n - 1);
  }

  /** The name a raw path denotes to the Rust client, which always takes the last segment as TLD. */
  function RustId(text: string): NameId {
    var seg := SplitDots(text);
    if |seg| < 2 then TopLevel(text, "sol") else IdOf(seg[..|seg| - 1], seg[|seg| - 1])
  }

  /** The Rust fold. */
  method NameHashForPath(keccak: Keccak, text: string) returns (h: seq<Byte>)
    ensures h == NameHash(keccak, RustId(text))
  {
    var seg := SplitDots(text);
    var n := |seg|;
    if n < 2 { return keccak(TopLevelPreimage(text, "sol")); }
    ghost var labels := seg[..n - 1];
    h := keccak(TopLevelPreimage(seg[n - 2], seg[n - 1]));
    var i := n - 2;
    while i > 0
      invariant 0 <= i <= n - 2
      invariant h == NameHash(keccak, IdOf(labels[i..], seg[n - 1]))
    {
      i := i - 1;
      HashStep(keccak, labels, seg[n - 1], i);
      h := keccak(SubdomainPreimage(h, seg[i]));
    }
    assert labels[0..] == labels;
  }

  lemma {:induction false} IdOfTld(labels: seq<string>, tld: string)
    requires labels != []
    ensures Tld(IdOf(labels, tld)) == tld
  {
    if |labels| > 1 {
      IdOfTld(labels[1..], tld);
    }
  }

  lemma {:induction false} IdOfValid(labels: seq<string>, tld: string)
    requires labels != [] && AllowedTld(tld)
    ensures ValidName(IdOf(labels, tld)) <==> ValidLabels(labels)
  {
    if |labels| == 1 {
    } else {
      IdOfValid(labels[1..], tld);
      assert labels == [labels[0]] + labels[1..];
    }
  }

  lemma {:induction false} IdOfInjective(a: seq<string>, t: string, b: seq<string>, u: string)
    requires a != [] && b != [] && IdOf(a, t) == IdOf(b, u)
    ensures a == b && t == u
  {
    if |a| > 1 && |b| > 1 {
      IdOfInjective(a[1..], t, b[1..], u);
      assert a == [a[0]] + a[1..] && b == [b[0]] + b[1..];
    }
  }

  /**
   * On every text the TypeScript client accepts, the Rust client means the same name exactly when
   * the text has no dot or ends in an accepted TLD.
   */
  lemma ClientsAgree(text: string)
    requires ParsePath(text, None).Some?
    ensures var p := ParsePath(text, None).value;
            RustId(text) == IdOf(p.labels, p.tld) <==> Dotless(text) || ExplicitTld(text)
  {
    if Dotless(text) || ExplicitTld(text) {
      SameName(text);
    } else {
      DottedWithoutTld(text);
      IdOfTld(SplitDots(Rest(text)), OwnTld(text));
    }
  }

  lemma SameName(text: string)
    requires Dotless(text) || ExplicitTld(text)
    ensures RustId(text) == IdOf(SplitDots(Rest(text)), OwnTld(text))
  {
    NoLastDot(text);
    if Dotless(text) {
      SplitDotless(text);
    } else {
      var head, tail := Rest(text), OwnTld(text);
      PrintedText(text);
      SplitAppend(head, tail);
      assert SplitDots(text)[..|SplitDots(text)| - 1] == SplitDots(head);
    }
  }

  lemma NoLeadingDot(text: string)
    requires ValidLabels(SplitDots(text))
    ensures LastDot(text) != 0
  {
    assert ValidLabel(SplitDots(text)[0]);
  }

  lemma RustTld(text: string)
    requires LastDot(text) > 0
    ensures Tld(RustId(text)) == text[LastDot(text) + 1..]
  {
    NoLastDot(text);
    var dot := LastDot(text);
    var head, tail := text[..dot], text[dot + 1..];
    assert text == head + "." + tail;
    SplitAppend(head, tail);
    IdOfTld(SplitDots(text)[..|SplitDots(text)| - 1], tail);
  }

  lemma DottedWithoutTld(text: string)
    requires ValidLabels(SplitDots(text)) && !Dotless(text) && !ExplicitTld(text)
    ensures Tld(RustId(text)) != "sol"
  {
    NoLastDot(text);
    NoLeadingDot(text);
    RustTld(text);
    assert AllowedTld("sol");
  }

  /** The text of a top-level name means that name. */
  lemma TopLevelText(name: string, tld: string)
    requires ValidLabel(name) && AllowedTld(tld)
    ensures RustId(name + "." + tld) == TopLevel(name, tld) && !Dotless(name + "." + tld)
  {
    LabelDotless(name);
    TldDotless(tld);
    SplitAppend(name, tld);
    SplitDotless(name);
    assert (name + "." + tld)[|name|] == '.';
  }

  lemma DottedSplits(s: string)
    requires !Dotless(s)
    ensures |SplitDots(s)| >= 2
  {
    NoLastDot(s);
    var dot := LastDot(s);
    assert s == s[..dot] + "." + s[dot + 1..];
    SplitAppend(s[..dot], s[dot + 1..]);
  }

  lemma LongerPath(name: string, seg: seq<string>)
    requires |seg| >= 2
    ensures ([name] + seg)[..|seg|] == [name] + seg[..|seg| - 1]
    ensures IdOf([name] + seg[..|seg| - 1], seg[|seg| - 1]) == Subdomain(IdOf(seg[..|seg| - 1], seg[|seg| - 1]), name)
  {
    assert ([name] + seg[..|seg| - 1])[1..] == seg[..|seg| - 1];
  }

  /** Prefixing a label to the text of a name means the subdomain under it. */
  lemma SubdomainText(name: string, parent: string)
    requires Dotless(name) && !Dotless(parent)
    ensures RustId(name + "." + parent) == Subdomain(RustId(parent), name) && !Dotless(name + "." + parent)
  {
    SplitPrepend(name, parent);
    DottedSplits(parent);
    LongerPath(name, SplitDots(parent));
    assert (name + "." + parent)[|name|] == '.';
  }

  /** Distinct valid paths under one key exhibit a keccak collision. */
  lemma DistinctPathsCollide(keccak: Keccak, p: Path, q: Path) returns (x: seq<Byte>, y: seq<Byte>)
    requires FixedWidth(keccak)
    requires ValidPath(p) && ValidPath(q) && p != q
    requires NameHash(keccak, IdOf(p.labels, p.tld)) == NameHash(keccak, IdOf(q.labels, q.tld))
    ensures x != y && keccak(x) == keccak(y)
  {
    IdOfValid(p.labels, p.tld);
    IdOfValid(q.labels, q.tld);
    if IdOf(p.labels, p.tld) == IdOf(q.labels, q.tld) {
      IdOfInjective(p.labels, p.tld, q.labels, q.tld);
    }
    x, y := DistinctNamesCollide(keccak, IdOf(p.labels, p.tld), IdOf(q.labels, q.tld));
  }
}
