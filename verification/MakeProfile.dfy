/** The signature and prologue of a function to hook (tools/re/make_profile.py,
    `build_target`). How an instruction decodes, and which of its bytes a build may
    change, is left to a decoder. */
module MakeProfile {
  import opened Protocol

  /** `mask` says which bytes are fixed; `straight`, whether the detour engine may
      steal it. */
  datatype Insn = Insn(raw: seq<Byte>, mask: seq<bool>, straight: bool)

  /** Decodes the first instruction of some code, the function's at this offset. */
  type Decoder = (seq<Byte>, nat) -> Option<Insn>

  /** An instruction decoded is the code's first bytes, at least one. */
  ghost predicate Decodes(decode: Decoder) {
    forall code, at :: decode(code, at).Some? ==>
      var i := decode(code, at).value;
      0 < |i.raw| <= |code| && i.raw == code[..|i.raw|] && |i.mask| == |i.raw|
  }

  /** The section scanned, the function's place in it, and how many of its bytes may
      be used. */
  datatype Source = Source(blob: seq<Byte>, index: nat, limit: int)

  predicate Fits(s: Source) { s.index <= |s.blob| && s.index + s.limit <= |s.blob| }

  /** The instruction after the first `covered` bytes. */
  function Next(s: Source, decode: Decoder, covered: nat): Option<Insn>
    requires Fits(s)
  {
    if covered >= s.limit then None else decode(s.blob[s.index + covered..s.index + s.limit], covered)
  }

  function Raw(insns: seq<Insn>): seq<Byte> {
    if insns == [] then [] else Raw(insns[..|insns| - 1]) + insns[|insns| - 1].raw
  }

  function Mask(insns: seq<Insn>): seq<bool> {
    if insns == [] then [] else Mask(insns[..|insns| - 1]) + insns[|insns| - 1].mask
  }

  /** The function's first `n` instructions, if that many decode within the limit. */
  function First(s: Source, decode: Decoder, n: nat): Option<seq<Insn>>
    requires Fits(s)
  {
    if n == 0 then Some([])
    else
      match First(s, decode, n - 1)
      case None => None
      case Some(insns) =>
        match Next(s, decode, |Raw(insns)|)
        case None => None
        case Some(i) => Some(insns + [i])
  }

  lemma OneMore(insns: seq<Insn>, i: Insn)
    ensures Raw(insns + [i]) == Raw(insns) + i.raw && Mask(insns + [i]) == Mask(insns) + i.mask
  {
    assert (insns + [i])[..|insns|] == insns;
  }

  /** Instructions that are the function's own first bytes. */
  predicate ItsBytes(s: Source, insns: seq<Insn>) {
    && |Mask(insns)| == |Raw(insns)| && (insns != [] ==> |Raw(insns)| <= s.limit)
    && s.index + |Raw(insns)| <= |s.blob| && Raw(insns) == s.blob[s.index..s.index + |Raw(insns)|]
  }

  lemma {:induction false} FirstAreItsBytes(s: Source, decode: Decoder, n: nat)
    requires Fits(s) && Decodes(decode) && First(s, decode, n).Some?
    ensures |First(s, decode, n).value| == n && ItsBytes(s, First(s, decode, n).value)
  {
    if n > 0 {
      FirstAreItsBytes(s, decode, n - 1);
      var insns := First(s, decode, n - 1).value;
      MoreOfItsBytes(s, decode, insns);
    }
  }

  lemma MoreOfItsBytes(s: Source, decode: Decoder, insns: seq<Insn>)
    requires Fits(s) && Decodes(decode) && ItsBytes(s, insns) && Next(s, decode, |Raw(insns)|).Some?
    ensures ItsBytes(s, insns + [Next(s, decode, |Raw(insns)|).value])
  {
    var i := Next(s, decode, |Raw(insns)|).value;
    OneMore(insns, i);
    NextIsItsBytes(s, decode, |Raw(insns)|);
    Joined(s.blob, s.index, s.index + |Raw(insns)|, s.index + |Raw(insns)| + |i.raw|);
  }

  lemma NextIsItsBytes(s: Source, decode: Decoder, covered: nat)
    requires Fits(s) && Decodes(decode) && Next(s, decode, covered).Some?
    ensures var i := Next(s, decode, covered).value;
            && |i.mask| == |i.raw| && 0 < |i.raw| && covered + |i.raw| <= s.limit
            && i.raw == s.blob[s.index + covered..s.index + covered + |i.raw|]
  {
    var code := s.blob[s.index + covered..s.index + s.limit];
    var i := decode(code, covered).value;
    assert i.raw == code[..|i.raw|] == s.blob[s.index + covered..s.index + covered + |i.raw|];
  }

  lemma Joined(blob: seq<Byte>, a: nat, b: nat, c: nat)
    requires a <= b <= c <= |blob|
    ensures blob[a..b] + blob[b..c] == blob[a..c]
  {
  }

  lemma {:induction false} FirstFewer(s: Source, decode: Decoder, m: nat, n: nat)
    requires Fits(s) && m <= n && First(s, decode, n).Some?
    ensures First(s, decode, m).Some?
  {
    if m < n {
      FirstFewer(s, decode, m, n - 1);
    }
  }

  // ---- What is asked for ----

  /** The pattern is at `c`. */
  predicate Matches(blob: seq<Byte>, raw: seq<Byte>, mask: seq<bool>, c: nat)
    requires |raw| == |mask|
  {
    c + |raw| <= |blob| && forall k :: 0 <= k < |raw| && mask[k] ==> blob[c + k] == raw[k]
  }

  /** The pattern's fixed bytes are at `c`, its first `whole` bytes all within the
      section: the rest of it may run past the end in bytes not fixed. */
  predicate Candidate(blob: seq<Byte>, raw: seq<Byte>, mask: seq<bool>, whole: nat, c: nat)
    requires |raw| == |mask|
  {
    && c + whole <= |blob|
    && forall k :: 0 <= k < |raw| && mask[k] ==> c + k < |blob| && blob[c + k] == raw[k]
  }

  lemma MatchesAreCandidates(blob: seq<Byte>, raw: seq<Byte>, mask: seq<bool>, whole: nat, c: nat)
    requires |raw| == |mask| && whole <= |raw|
    ensures Matches(blob, raw, mask, c) <==> Candidate(blob, raw, mask, whole, c) && c + |raw| <= |blob|
  {
  }

  /** The first instructions that cover at least `steal` bytes, all straight. */
  ghost predicate IsPrologue(s: Source, decode: Decoder, steal: nat, p: nat)
    requires Fits(s)
  {
    && First(s, decode, p).Some? && |Raw(First(s, decode, p).value)| >= steal
    && (forall i <- First(s, decode, p).value :: i.straight)
    && forall m :: 0 <= m < p ==> First(s, decode, m).Some? && |Raw(First(s, decode, m).value)| < steal
  }

  /** The first `n` instructions make a pattern that is at the function alone. */
  ghost predicate Alone(s: Source, decode: Decoder, p: nat, n: nat)
    requires Fits(s) && Decodes(decode) && p <= n
  {
    && First(s, decode, n).Some? && First(s, decode, p).Some?
    && var insns := First(s, decode, n).value;
       |Raw(insns)| == |Mask(insns)|
       && forall c: nat :: Candidate(s.blob, Raw(insns), Mask(insns), |Raw(First(s, decode, p).value)|, c) ==> c == s.index
  }

  datatype Built = Built(raw: seq<Byte>, mask: seq<bool>, prologue: seq<Byte>)

  datatype Refusal = NoPrologue | NotUnique(matches: nat)

  /** A signature: the fewest instructions, from the prologue's on, that are alone. */
  ghost predicate Signature(s: Source, decode: Decoder, steal: nat, p: nat, n: nat)
    requires Fits(s) && Decodes(decode)
  {
    && IsPrologue(s, decode, steal, p) && p <= n && Alone(s, decode, p, n)
    && forall m :: p <= m < n ==> !Alone(s, decode, p, m)
  }

  // ---- Building it ----

  /** The function's next instruction, taken after the first `n`. */
  method DecodeNext(s: Source, decode: Decoder, insns: seq<Insn>, covered: nat, ghost n: nat) returns (found: Option<Insn>)
    requires Fits(s) && First(s, decode, n) == Some(insns) && covered == |Raw(insns)|
    ensures found == Next(s, decode, covered)
    ensures found.None? ==> First(s, decode, n + 1).None?
    ensures found.Some? ==> First(s, decode, n + 1) == Some(insns + [found.value])
  {
    found := if covered >= s.limit then None else decode(s.blob[s.index + covered..s.index + s.limit], covered);
  }

  lemma NoneAfter(s: Source, decode: Decoder, m: nat, n: nat)
    requires Fits(s) && First(s, decode, m).None? && m <= n
    ensures First(s, decode, n).None?
  {
    if First(s, decode, n).Some? {
      FirstFewer(s, decode, m, n);
    }
  }

  lemma GrowsBy(s: Source, decode: Decoder, m: nat, n: nat)
    requires Fits(s) && Decodes(decode) && m <= n && First(s, decode, n).Some?
    ensures First(s, decode, m).Some? && |Raw(First(s, decode, m).value)| <= |Raw(First(s, decode, n).value)|
    ensures |First(s, decode, n).value| == n && First(s, decode, m).value == First(s, decode, n).value[..m]
    decreases n
  {
    FirstAreItsBytes(s, decode, n);
    if m < n {
      GrowsBy(s, decode, m, n - 1);
      FirstAreItsBytes(s, decode, n - 1);
      OneMore(First(s, decode, n - 1).value, Next(s, decode, |Raw(First(s, decode, n - 1).value)|).value);
      assert First(s, decode, n).value[..m] == First(s, decode, n - 1).value[..m];
    }
  }

  /** Instructions until `steal` bytes are covered, or why not. */
  method Prologue(s: Source, decode: Decoder, steal: nat) returns (insns: Option<seq<Insn>>, ghost p: nat)
    requires Fits(s) && Decodes(decode)
    ensures insns.Some? ==> IsPrologue(s, decode, steal, p) && insns == First(s, decode, p)
    ensures insns.None? ==> forall q :: !IsPrologue(s, decode, steal, q)
  {
    var got, covered := [], 0;
    p := 0;
    while covered < steal
      invariant GoesStraight(s, decode, steal, p, got) && covered == |Raw(got)|
      decreases steal - covered
    {
      var found := DecodeNext(s, decode, got, covered, p);
      if found.None? {
        NotCovered(s, decode, steal, p);
        return None, p;
      }
      OneMore(got, found.value);
      NextIsItsBytes(s, decode, covered);
      if !found.value.straight {
        NotStraight(s, decode, steal, p + 1);
        return None, p + 1;
      }
      GoesOn(s, decode, steal, p, got, found.value);
      got, covered, p := got + [found.value], covered + |found.value.raw|, p + 1;
    }
    return Some(got), p;
  }

  /** The first `p` instructions are straight, and fewer cover too little. */
  ghost predicate GoesStraight(s: Source, decode: Decoder, steal: nat, p: nat, got: seq<Insn>)
    requires Fits(s)
  {
    && First(s, decode, p) == Some(got) && (forall i <- got :: i.straight)
    && forall m :: 0 <= m < p ==> First(s, decode, m).Some? && |Raw(First(s, decode, m).value)| < steal
  }

  lemma GoesOn(s: Source, decode: Decoder, steal: nat, p: nat, got: seq<Insn>, i: Insn)
    requires Fits(s) && GoesStraight(s, decode, steal, p, got) && |Raw(got)| < steal && i.straight
    requires First(s, decode, p + 1) == Some(got + [i])
    ensures GoesStraight(s, decode, steal, p + 1, got + [i])
  {
  }

  lemma NotCovered(s: Source, decode: Decoder, steal: nat, p: nat)
    requires Fits(s) && Decodes(decode) && First(s, decode, p).Some? && First(s, decode, p + 1).None?
    requires |Raw(First(s, decode, p).value)| < steal
    ensures forall q :: !IsPrologue(s, decode, steal, q)
  {
    forall q: nat ensures !IsPrologue(s, decode, steal, q) {
      if q <= p {
        GrowsBy(s, decode, q, p);
      } else {
        NoneAfter(s, decode, p + 1, q);
      }
    }
  }

  lemma NotStraight(s: Source, decode: Decoder, steal: nat, p: nat)
    requires Fits(s) && Decodes(decode) && p > 0 && First(s, decode, p).Some?
    requires First(s, decode, p - 1).Some? && |Raw(First(s, decode, p - 1).value)| < steal
    requires !First(s, decode, p).value[|First(s, decode, p).value| - 1].straight
    ensures forall q :: !IsPrologue(s, decode, steal, q)
  {
    FirstAreItsBytes(s, decode, p);
    forall q: nat ensures !IsPrologue(s, decode, steal, q) {
      if q < p {
        NotYetCovered(s, decode, steal, q, p - 1);
      } else if First(s, decode, q).Some? {
        NotStraightOn(s, decode, p, q);
      }
    }
  }

  lemma NotYetCovered(s: Source, decode: Decoder, steal: nat, q: nat, p: nat)
    requires Fits(s) && Decodes(decode) && q <= p && First(s, decode, p).Some?
    requires |Raw(First(s, decode, p).value)| < steal
    ensures !IsPrologue(s, decode, steal, q)
  {
    GrowsBy(s, decode, q, p);
  }

  lemma NotStraightOn(s: Source, decode: Decoder, p: nat, q: nat)
    requires Fits(s) && Decodes(decode) && 0 < p <= q && First(s, decode, p).Some? && First(s, decode, q).Some?
    requires var insns := First(s, decode, p).value; insns != [] && !insns[|insns| - 1].straight
    ensures exists i <- First(s, decode, q).value :: !i.straight
  {
    GrowsBy(s, decode, p, q);
    var insns := First(s, decode, p).value;
    assert First(s, decode, q).value[|insns| - 1] == insns[|insns| - 1];
  }

  /** Every place in the section where the pattern is. */
  method FindAll(blob: seq<Byte>, raw: seq<Byte>, mask: seq<bool>) returns (found: seq<nat>)
    requires |raw| == |mask|
    ensures forall c: nat :: c in found <==> Matches(blob, raw, mask, c)
    ensures forall i, j :: 0 <= i < j < |found| ==> found[i] < found[j]
  {
    found := [];
    for c := 0 to |blob| + 1
      invariant forall d: nat :: d in found <==> d < c && Matches(blob, raw, mask, d)
      invariant forall i, j :: 0 <= i < j < |found| ==> found[i] < found[j]
    {
      if Matches(blob, raw, mask, c) {
        forall j | 0 <= j < |found| ensures found[j] < c {
          assert found[j] in found;
        }
        found := found + [c];
      }
    }
  }

  /** Those of the candidates that the bytes from `start` on do not rule out. */
  method Refilter(blob: seq<Byte>, candidates: seq<nat>, start: nat, raw: seq<Byte>, mask: seq<bool>) returns (kept: seq<nat>)
    requires |raw| == |mask|
    requires forall i, j :: 0 <= i < j < |candidates| ==> candidates[i] < candidates[j]
    ensures forall c :: c in kept <==> c in candidates && StillThere(blob, raw, mask, c + start)
    ensures forall i, j :: 0 <= i < j < |kept| ==> kept[i] < kept[j]
  {
    kept := [];
    for i := 0 to |candidates|
      invariant forall c :: c in kept <==> c in candidates[..i] && StillThere(blob, raw, mask, c + start)
      invariant forall j, k :: 0 <= j < k < |kept| ==> kept[j] < kept[k]
    {
      assert candidates[..i + 1] == candidates[..i] + [candidates[i]];
      if StillThere(blob, raw, mask, candidates[i] + start) {
        forall j | 0 <= j < |kept| ensures kept[j] < candidates[i] {
          assert kept[j] in kept && kept[j] in candidates[..i];
        }
        kept := kept + [candidates[i]];
      }
    }
    assert candidates[..|candidates|] == candidates;
  }

  predicate StillThere(blob: seq<Byte>, raw: seq<Byte>, mask: seq<bool>, at: nat)
    requires |raw| == |mask|
  {
    forall k :: 0 <= k < |raw| && mask[k] ==> at + k < |blob| && blob[at + k] == raw[k]
  }

  lemma CandidateOnward(blob: seq<Byte>, raw: seq<Byte>, mask: seq<bool>, more: seq<Byte>, moreMask: seq<bool>, whole: nat, c: nat)
    requires |raw| == |mask| && |more| == |moreMask|
    ensures Candidate(blob, raw + more, mask + moreMask, whole, c)
            <==> Candidate(blob, raw, mask, whole, c) && StillThere(blob, more, moreMask, c + |raw|)
  {
    if Candidate(blob, raw + more, mask + moreMask, whole, c) {
      forall k | 0 <= k < |raw| && mask[k] ensures c + k < |blob| && blob[c + k] == raw[k] {
        assert (mask + moreMask)[k] && (raw + more)[k] == raw[k];
      }
      forall k | 0 <= k < |more| && moreMask[k] ensures c + |raw| + k < |blob| && blob[c + |raw| + k] == more[k] {
        assert (mask + moreMask)[|raw| + k] && (raw + more)[|raw| + k] == more[k];
      }
    }
  }

  /** The function's own place is always among them. */
  lemma ItselfIsThere(s: Source, decode: Decoder, n: nat, whole: nat)
    requires Fits(s) && Decodes(decode) && First(s, decode, n).Some? && whole <= |Raw(First(s, decode, n).value)|
    ensures var insns := First(s, decode, n).value;
            |Mask(insns)| == |Raw(insns)| && Candidate(s.blob, Raw(insns), Mask(insns), whole, s.index)
  {
    FirstAreItsBytes(s, decode, n);
    var raw := Raw(First(s, decode, n).value);
    assert forall k :: 0 <= k < |raw| ==> s.blob[s.index + k] == raw[k];
  }

  ghost predicate CandidatesAre(s: Source, insns: seq<Insn>, whole: nat, candidates: seq<nat>)
    requires |Raw(insns)| == |Mask(insns)|
  {
    && (forall c: nat :: c in candidates <==> Candidate(s.blob, Raw(insns), Mask(insns), whole, c))
    && forall i, j :: 0 <= i < j < |candidates| ==> candidates[i] < candidates[j]
  }

  lemma AloneByCount(s: Source, decode: Decoder, p: nat, n: nat, candidates: seq<nat>)
    requires Fits(s) && Decodes(decode) && p <= n && First(s, decode, n).Some? && First(s, decode, p).Some?
    requires var insns := First(s, decode, n).value;
             |Raw(insns)| == |Mask(insns)| && CandidatesAre(s, insns, |Raw(First(s, decode, p).value)|, candidates)
    ensures |candidates| == 1 <==> Alone(s, decode, p, n)
  {
    var insns, whole := First(s, decode, n).value, |Raw(First(s, decode, p).value)|;
    GrowsBy(s, decode, p, n);
    ItselfIsThere(s, decode, n, whole);
    CountOne(s, insns, whole, candidates);
  }

  /** One candidate is the function itself; two are one more. */
  lemma CountOne(s: Source, insns: seq<Insn>, whole: nat, candidates: seq<nat>)
    requires |Raw(insns)| == |Mask(insns)| && CandidatesAre(s, insns, whole, candidates)
    requires Candidate(s.blob, Raw(insns), Mask(insns), whole, s.index)
    ensures |candidates| == 1 <==> forall c: nat :: Candidate(s.blob, Raw(insns), Mask(insns), whole, c) ==> c == s.index
  {
    assert s.index in candidates;
    if |candidates| > 1 {
      assert candidates[0] in candidates && candidates[1] in candidates && candidates[0] != candidates[1];
    }
  }

  lemma OnePrologue(s: Source, decode: Decoder, steal: nat, p: nat, q: nat)
    requires Fits(s) && IsPrologue(s, decode, steal, p) && IsPrologue(s, decode, steal, q)
    ensures p == q
  {
  }

  lemma NoSignature(s: Source, decode: Decoder, steal: nat, p: nat, n: nat)
    requires Fits(s) && Decodes(decode) && IsPrologue(s, decode, steal, p) && p <= n && First(s, decode, n + 1).None?
    requires forall m :: p <= m <= n ==> !Alone(s, decode, p, m)
    ensures forall q, m :: !Signature(s, decode, steal, q, m)
  {
    forall q: nat, m: nat ensures !Signature(s, decode, steal, q, m) {
      if n < m {
        NoneAfter(s, decode, n + 1, m);
      } else if IsPrologue(s, decode, steal, q) {
        OnePrologue(s, decode, steal, p, q);
      }
    }
  }

  /** The first `n` instructions, and the candidates their pattern leaves. */
  ghost predicate Tried(s: Source, decode: Decoder, p: nat, n: nat, insns: seq<Insn>, candidates: seq<nat>)
    requires Fits(s) && Decodes(decode)
  {
    && p <= n && First(s, decode, n) == Some(insns) && First(s, decode, p).Some? && |Raw(insns)| == |Mask(insns)|
    && CandidatesAre(s, insns, |Raw(First(s, decode, p).value)|, candidates)
    && forall m :: p <= m < n ==> !Alone(s, decode, p, m)
  }

  /** What is left of the candidates by an instruction `offset` bytes on, in order. */
  ghost predicate Kept(blob: seq<Byte>, candidates: seq<nat>, i: Insn, offset: nat, kept: seq<nat>)
    requires |i.raw| == |i.mask|
  {
    && (forall c :: c in kept <==> c in candidates && StillThere(blob, i.raw, i.mask, c + offset))
    && (forall j, k :: 0 <= j < k < |kept| ==> kept[j] < kept[k])
  }

  lemma TryOneMore(s: Source, decode: Decoder, p: nat, n: nat, insns: seq<Insn>, candidates: seq<nat>, i: Insn, kept: seq<nat>)
    requires Fits(s) && Decodes(decode) && Tried(s, decode, p, n, insns, candidates) && !Alone(s, decode, p, n)
    requires First(s, decode, n + 1) == Some(insns + [i]) && |i.raw| == |i.mask|
    requires Kept(s.blob, candidates, i, |Raw(insns)|, kept)
    ensures Tried(s, decode, p, n + 1, insns + [i], kept)
  {
    KeptAre(s, insns, i, |Raw(First(s, decode, p).value)|, candidates, kept);
  }

  lemma KeptAre(s: Source, insns: seq<Insn>, i: Insn, whole: nat, candidates: seq<nat>, kept: seq<nat>)
    requires |Raw(insns)| == |Mask(insns)| && |i.raw| == |i.mask| && CandidatesAre(s, insns, whole, candidates)
    requires Kept(s.blob, candidates, i, |Raw(insns)|, kept)
    ensures |Raw(insns + [i])| == |Mask(insns + [i])| && CandidatesAre(s, insns + [i], whole, kept)
  {
    OneMore(insns, i);
    forall c: nat ensures c in kept <==> Candidate(s.blob, Raw(insns) + i.raw, Mask(insns) + i.mask, whole, c) {
      CandidateOnward(s.blob, Raw(insns), Mask(insns), i.raw, i.mask, whole, c);
      assert c in candidates <==> Candidate(s.blob, Raw(insns), Mask(insns), whole, c);
    }
  }

  /** The bytes that may be used: none past the section's end or the function's, nor
      more than allowed. */
  function SourceOf(blob: seq<Byte>, index: nat, size: Option<nat>, maxLength: int): (s: Source)
    requires index <= |blob|
    ensures s.blob == blob && s.index == index
    ensures Fits(s) && s.limit <= maxLength && (size.Some? && size.value > 0 ==> s.limit <= size.value)
    ensures s.limit == maxLength || s.limit == |blob| - index || (size.Some? && 0 < s.limit == size.value)
  {
    var toEnd := |blob| - index;
    var inside := if size.Some? && 0 < size.value < toEnd then size.value else toEnd;
    Source(blob, index, if maxLength < inside then maxLength else inside)
  }

  /** Builds a function's signature and prologue: the fewest instructions from the
      prologue's on that are alone, or a refusal exactly when there is no such
      signature. */
  method BuildTarget(blob: seq<Byte>, index: nat, size: Option<nat>, maxLength: int, decode: Decoder, steal: nat)
    returns (r: Result<Built, Refusal>)
    requires index <= |blob| && Decodes(decode)
    ensures var s := SourceOf(blob, index, size, maxLength);
            match r
            case Ok(b) => exists p, n :: IsBuilt(s, decode, steal, b, p, n)
            case Err(_) => forall p, n :: !Signature(s, decode, steal, p, n)
  {
    var s := SourceOf(blob, index, size, maxLength);
    var found, p := Prologue(s, decode, steal);
    if found.None? {
      return Err(NoPrologue);
    }
    FirstAreItsBytes(s, decode, p);
    var candidates := FindAll(blob, Raw(found.value), Mask(found.value));
    FirstTried(s, decode, p, candidates);
    ghost var n;
    r, n := Extend(s, decode, steal, p, found.value, candidates);
    assert r.Ok? ==> IsBuilt(s, decode, steal, r.value, p, n);
  }

  /** A signature of the first `n` instructions, whose prologue is the first `p`. */
  ghost predicate IsBuilt(s: Source, decode: Decoder, steal: nat, b: Built, p: nat, n: nat)
    requires Fits(s) && Decodes(decode)
  {
    && Signature(s, decode, steal, p, n)
    && b == Built(Raw(First(s, decode, n).value), Mask(First(s, decode, n).value), Raw(First(s, decode, p).value))
  }

  /** Lengthens the prologue by whole instructions to the first pattern that is alone. */
  method Extend(s: Source, decode: Decoder, ghost steal: nat, ghost p: nat, prologue: seq<Insn>, first: seq<nat>)
    returns (r: Result<Built, Refusal>, ghost n: nat)
    requires Fits(s) && Decodes(decode) && IsPrologue(s, decode, steal, p) && First(s, decode, p) == Some(prologue)
    requires Tried(s, decode, p, p, prologue, first)
    ensures match r
            case Ok(b) => IsBuilt(s, decode, steal, b, p, n)
            case Err(_) => forall q, m :: !Signature(s, decode, steal, q, m)
  {
    var insns, candidates := prologue, first;
    var raw, mask := Raw(prologue), Mask(prologue);
    n := p;
    while true
      invariant Tried(s, decode, p, n, insns, candidates) && raw == Raw(insns) && mask == Mask(insns)
      decreases s.limit - |raw|
    {
      if |candidates| == 1 {
        AloneAtLast(s, decode, steal, p, n, insns, candidates);
        return Ok(Built(raw, mask, Raw(prologue))), n;
      }
      NotYetAlone(s, decode, p, n, insns, candidates);
      var more, kept := Lengthen(s, decode, p, n, insns, |raw|, candidates);
      if more.None? {
        ShorterNotAlone(s, decode, steal, p, n, insns, candidates);
        return Err(NotUnique(|candidates|)), n;
      }
      OneMore(insns, more.value);
      insns, raw, mask := insns + [more.value], raw + more.value.raw, mask + more.value.mask;
      candidates, n := kept, n + 1;
    }
  }

  lemma AloneAtLast(s: Source, decode: Decoder, steal: nat, p: nat, n: nat, insns: seq<Insn>, candidates: seq<nat>)
    requires Fits(s) && Decodes(decode) && IsPrologue(s, decode, steal, p)
    requires Tried(s, decode, p, n, insns, candidates) && |candidates| == 1
    ensures Signature(s, decode, steal, p, n)
  {
    AloneByCount(s, decode, p, n, candidates);
  }

  lemma NotYetAlone(s: Source, decode: Decoder, p: nat, n: nat, insns: seq<Insn>, candidates: seq<nat>)
    requires Fits(s) && Decodes(decode) && Tried(s, decode, p, n, insns, candidates) && |candidates| != 1
    ensures !Alone(s, decode, p, n)
  {
    AloneByCount(s, decode, p, n, candidates);
  }

  lemma ShorterNotAlone(s: Source, decode: Decoder, steal: nat, p: nat, n: nat, insns: seq<Insn>, candidates: seq<nat>)
    requires Fits(s) && Decodes(decode) && IsPrologue(s, decode, steal, p)
    requires Tried(s, decode, p, n, insns, candidates) && !Alone(s, decode, p, n) && First(s, decode, n + 1).None?
    ensures forall q, m :: !Signature(s, decode, steal, q, m)
  {
    NoSignature(s, decode, steal, p, n);
  }

  /** One instruction more, and the candidates it leaves. */
  method Lengthen(s: Source, decode: Decoder, ghost p: nat, ghost n: nat, insns: seq<Insn>, covered: nat, candidates: seq<nat>)
    returns (more: Option<Insn>, kept: seq<nat>)
    requires Fits(s) && Decodes(decode) && Tried(s, decode, p, n, insns, candidates) && !Alone(s, decode, p, n)
    requires covered == |Raw(insns)|
    ensures more.None? ==> First(s, decode, n + 1).None?
    ensures more.Some? ==> 0 < |more.value.raw| && covered + |more.value.raw| <= s.limit
                           && Tried(s, decode, p, n + 1, insns + [more.value], kept)
  {
    more := DecodeNext(s, decode, insns, covered, n);
    kept := [];
    if more.Some? {
      NextIsItsBytes(s, decode, covered);
      kept := Refilter(s.blob, candidates, covered, more.value.raw, more.value.mask);
      TryOneMore(s, decode, p, n, insns, candidates, more.value, kept);
    }
  }

  lemma FirstTried(s: Source, decode: Decoder, p: nat, candidates: seq<nat>)
    requires Fits(s) && Decodes(decode) && First(s, decode, p).Some?
    requires var insns := First(s, decode, p).value;
             && |Raw(insns)| == |Mask(insns)|
             && (forall c: nat :: c in candidates <==> Matches(s.blob, Raw(insns), Mask(insns), c))
    requires forall i, j :: 0 <= i < j < |candidates| ==> candidates[i] < candidates[j]
    ensures Tried(s, decode, p, p, First(s, decode, p).value, candidates)
  {
    var insns := First(s, decode, p).value;
    forall c: nat ensures Matches(s.blob, Raw(insns), Mask(insns), c) <==> Candidate(s.blob, Raw(insns), Mask(insns), |Raw(insns)|, c) {
      MatchesAreCandidates(s.blob, Raw(insns), Mask(insns), |Raw(insns)|, c);
    }
  }

  // ---- What a signature is worth ----

  /** A signature built is in the section once, at its function; it leaves neither the
      function nor the section, and is no longer than allowed; its prologue is the
      function's own first bytes, at least as many as asked for, in straight
      instructions. */
  lemma SignatureMatchesOnce(blob: seq<Byte>, index: nat, size: Option<nat>, maxLength: int, decode: Decoder, steal: nat,
                             p: nat, n: nat)
    requires index <= |blob| && Decodes(decode)
    requires Signature(SourceOf(blob, index, size, maxLength), decode, steal, p, n)
    ensures var s := SourceOf(blob, index, size, maxLength);
            var insns, first := First(s, decode, n).value, First(s, decode, p).value;
            && |Raw(insns)| == |Mask(insns)|
            && (forall c: nat :: Matches(blob, Raw(insns), Mask(insns), c) <==> c == index)
            && (insns != [] ==> |Raw(insns)| <= maxLength && (size.Some? && size.value > 0 ==> |Raw(insns)| <= size.value))
            && steal <= |Raw(first)| <= |Raw(insns)| && Raw(first) == blob[index..index + |Raw(first)|]
            && forall i <- first :: i.straight
  {
    var s := SourceOf(blob, index, size, maxLength);
    FirstAreItsBytes(s, decode, n);
    FirstAreItsBytes(s, decode, p);
    GrowsBy(s, decode, p, n);
    AloneMatchesOnce(s, decode, p, n);
  }

  lemma AloneMatchesOnce(s: Source, decode: Decoder, p: nat, n: nat)
    requires Fits(s) && Decodes(decode) && p <= n && Alone(s, decode, p, n)
    ensures var insns := First(s, decode, n).value;
            forall c: nat :: Matches(s.blob, Raw(insns), Mask(insns), c) <==> c == s.index
  {
    var insns, whole := First(s, decode, n).value, |Raw(First(s, decode, p).value)|;
    FirstAreItsBytes(s, decode, n);
    GrowsBy(s, decode, p, n);
    forall c: nat ensures Matches(s.blob, Raw(insns), Mask(insns), c) <==> c == s.index {
      MatchesAreCandidates(s.blob, Raw(insns), Mask(insns), whole, c);
      ItselfIsThere(s, decode, n, whole);
    }
  }

  /** Being alone asks more than matching once: nor may the pattern's fixed bytes be
      found where the rest of it runs past the section's end. A function is refused
      for want of that, too. */
  lemma AloneExactlyWhen(s: Source, decode: Decoder, p: nat, n: nat)
    requires Fits(s) && Decodes(decode) && p <= n && First(s, decode, n).Some?
    ensures var insns := First(s, decode, n).value;
            && First(s, decode, p).Some? && |Raw(insns)| == |Mask(insns)|
            && var whole := |Raw(First(s, decode, p).value)|;
               Alone(s, decode, p, n) <==>
                 && (forall c: nat :: Matches(s.blob, Raw(insns), Mask(insns), c) <==> c == s.index)
                 && (forall c: nat | c + |Raw(insns)| > |s.blob| :: !Candidate(s.blob, Raw(insns), Mask(insns), whole, c))
  {
    GrowsBy(s, decode, p, n);
    FirstAreItsBytes(s, decode, n);
    var insns, whole := First(s, decode, n).value, |Raw(First(s, decode, p).value)|;
    ItselfIsThere(s, decode, n, whole);
    forall c: nat ensures Matches(s.blob, Raw(insns), Mask(insns), c) <==>
                          Candidate(s.blob, Raw(insns), Mask(insns), whole, c) && c + |Raw(insns)| <= |s.blob|
    {
      MatchesAreCandidates(s.blob, Raw(insns), Mask(insns), whole, c);
    }
  }

  // Two instructions as x86-64 has them: a NOP, and a short jump, whose target a build
  // may move and which the detour engine does not steal.
  const NOP := Insn([0x90], [true], true)
  const JUMP := Insn([0xEB, 7], [true, false], false)

  function NopsAndJumps(code: seq<Byte>, at: nat): Option<Insn> {
    if |code| > 0 && code[0] == 0x90 then Some(Insn(code[..1], [true], true))
    else if |code| > 1 && code[0] == 0xEB then Some(Insn(code[..2], [true, false], false))
    else None
  }

  /** A function of five NOPs and a jump, and five NOPs more before the first byte of
      another jump, which the section cuts. */
  const CUT_SECTION: seq<Byte> := [0x90, 0x90, 0x90, 0x90, 0x90, 0xEB, 7, 0x90, 0x90, 0x90, 0x90, 0x90, 0xEB]

  function CutSource(): Source { SourceOf(CUT_SECTION, 0, Some(7), 128) }

  const NOPS: seq<Byte> := [0x90, 0x90, 0x90, 0x90, 0x90]
  const FIXED: seq<bool> := [true, true, true, true, true]
  const PATTERN: seq<Byte> := NOPS + [0xEB, 7]
  const PATTERN_MASK: seq<bool> := FIXED + [true, false]

  function Nops(n: nat): seq<Insn> { seq(n, _ => NOP) }

  lemma {:induction false} RawOfNops(n: nat)
    ensures |Raw(Nops(n))| == |Mask(Nops(n))| == n
    ensures forall k :: 0 <= k < n ==> Raw(Nops(n))[k] == 0x90 && Mask(Nops(n))[k]
  {
    if n > 0 {
      RawOfNops(n - 1);
      assert Nops(n) == Nops(n - 1) + [NOP];
      OneMore(Nops(n - 1), NOP);
    }
  }

  lemma CutNext(covered: nat)
    requires covered <= 7
    ensures Decodes(NopsAndJumps)
    ensures covered < 5 ==> Next(CutSource(), NopsAndJumps, covered) == Some(NOP)
    ensures covered == 5 ==> Next(CutSource(), NopsAndJumps, covered) == Some(JUMP)
    ensures covered == 7 ==> Next(CutSource(), NopsAndJumps, covered).None?
  {
    var code := CUT_SECTION[covered..7];
    if covered < 5 {
      assert code[0] == CUT_SECTION[covered] && code[..1] == [code[0]];
    } else if covered == 5 {
      assert code == [0xEB, 7] && code[..2] == code;
    }
  }

  lemma {:induction false} CutDecodes(n: nat)
    requires n <= 5
    ensures First(CutSource(), NopsAndJumps, n) == Some(Nops(n))
  {
    if n > 0 {
      CutDecodes(n - 1);
      RawOfNops(n - 1);
      CutNext(n - 1);
      assert Nops(n) == Nops(n - 1) + [NOP];
    }
  }

  lemma FiveNops()
    ensures Raw(Nops(5)) == NOPS && Mask(Nops(5)) == FIXED
  {
    RawOfNops(5);
    var raw, mask := Raw(Nops(5)), Mask(Nops(5));
    assert forall k :: 0 <= k < 5 ==> NOPS[k] == 0x90 && FIXED[k];
    assert |raw| == |NOPS| && forall k :: 0 <= k < |raw| ==> raw[k] == NOPS[k];
    assert |mask| == |FIXED| && forall k :: 0 <= k < |mask| ==> mask[k] == FIXED[k];
  }

  lemma CutPatterns()
    ensures Raw(Nops(5) + [JUMP]) == PATTERN && Mask(Nops(5) + [JUMP]) == PATTERN_MASK
  {
    FiveNops();
    OneMore(Nops(5), JUMP);
  }

  lemma CutDecodesToItsEnd()
    ensures First(CutSource(), NopsAndJumps, 6) == Some(Nops(5) + [JUMP]) && First(CutSource(), NopsAndJumps, 7).None?
  {
    CutDecodes(5);
    RawOfNops(5);
    CutNext(5);
    OneMore(Nops(5), JUMP);
    assert |Raw(Nops(5) + [JUMP])| == 7;
    CutNext(7);
  }

  lemma CutMatches()
    ensures forall c: nat :: Matches(CUT_SECTION, PATTERN, PATTERN_MASK, c) <==> c == 0
    ensures Candidate(CUT_SECTION, NOPS, FIXED, 5, 7) && Candidate(CUT_SECTION, PATTERN, PATTERN_MASK, 5, 7)
  {
    forall c: nat | Matches(CUT_SECTION, PATTERN, PATTERN_MASK, c) ensures c == 0 {
      assert PATTERN_MASK[5] && PATTERN[5] == CUT_SECTION[c + 5];
    }
  }

  lemma CutPrologue()
    ensures IsPrologue(CutSource(), NopsAndJumps, 5, 5)
  {
    CutDecodes(5);
    RawOfNops(5);
    forall m | 0 <= m < 5
      ensures First(CutSource(), NopsAndJumps, m).Some? && |Raw(First(CutSource(), NopsAndJumps, m).value)| < 5
    {
      CutDecodes(m);
      RawOfNops(m);
    }
  }

  lemma CutNotAlone(m: nat)
    requires 5 <= m <= 6 && Decodes(NopsAndJumps)
    ensures !Alone(CutSource(), NopsAndJumps, 5, m)
  {
    CutDecodes(5);
    CutDecodesToItsEnd();
    FiveNops();
    CutPatterns();
    CutMatches();
    assert m == 5 || m == 6;
  }

  /** So a function may be refused though its pattern is in the section once, even with
      the fewest bytes the tool will steal: here its instructions up to its end are,
      but their fixed bytes also end the section. */
  lemma RefusedThoughThereOnce()
    ensures Decodes(NopsAndJumps) && First(CutSource(), NopsAndJumps, 6) == Some(Nops(5) + [JUMP])
    ensures Raw(Nops(5) + [JUMP]) == PATTERN && Mask(Nops(5) + [JUMP]) == PATTERN_MASK
    ensures forall c: nat :: Matches(CUT_SECTION, PATTERN, PATTERN_MASK, c) <==> c == 0
    ensures forall p, n :: !Signature(CutSource(), NopsAndJumps, 5, p, n)
  {
    CutNext(0);
    CutDecodesToItsEnd();
    CutPatterns();
    CutMatches();
    CutPrologue();
    forall m | 5 <= m <= 6 ensures !Alone(CutSource(), NopsAndJumps, 5, m) {
      CutNotAlone(m);
    }
    NoSignature(CutSource(), NopsAndJumps, 5, 5, 6);
  }
}
