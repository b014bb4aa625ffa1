/**
 Time-based one-time passwords (section 5.3 of RFC 4226, section 5.2 of RFC 6238) and recovery
 codes.  The keyed hash of the user's secret is a function of the counter that returns twenty
 bytes; `hash` is the digest recovery codes are stored under.  Times are nanoseconds since 1970.
 */
module Mfa {
  import opened Options

  type Digest = d: seq<bv8> | |d| == 20 witness seq(20, i => 0)

  // ---------- truncation ----------

  function Offset(d: Digest): nat {
    (d[19] & 15) as nat
  }

  /** The four bytes read end before the twentieth. */
  lemma OffsetIsInside(d: Digest)
    ensures Offset(d) + 3 <= 18
  {
    assert d[19] & 15 <= 15;
  }

  function Wide(b: bv8): bv32 {
    b as bv32
  }

  /** The handler's expression over four bytes. */
  function Combine(b0: bv8, b1: bv8, b2: bv8, b3: bv8): bv32 {
    ((Wide(b0) & 127) << 24) | ((Wide(b1) & 255) << 16) | ((Wide(b2) & 255) << 8) | (Wide(b3) & 255)
  }

  function Value(d: Digest): bv32 {
    OffsetIsInside(d);
    var o := Offset(d);
    Combine(d[o], d[o + 1], d[o + 2], d[o + 3])
  }

  /** The big-endian word of four bytes. */
  function Word(b0: bv8, b1: bv8, b2: bv8, b3: bv8): bv32 {
    (Wide(b0) << 24) | (Wide(b1) << 16) | (Wide(b2) << 8) | Wide(b3)
  }

  /** The bytes of a word, from the top. */
  predicate HasBytes(w: bv32, b0: bv8, b1: bv8, b2: bv8, b3: bv8) {
    w >> 24 == Wide(b0) && (w >> 16) & 255 == Wide(b1) && (w >> 8) & 255 == Wide(b2) && w & 255 == Wide(b3)
  }

  lemma WordIsBigEndian(b0: bv8, b1: bv8, b2: bv8, b3: bv8)
    ensures HasBytes(Word(b0, b1, b2, b3), b0, b1, b2, b3)
  {
  }

  lemma CombineIsMaskedWord(b0: bv8, b1: bv8, b2: bv8, b3: bv8)
    ensures Combine(b0, b1, b2, b3) == Word(b0, b1, b2, b3) & 0x7FFF_FFFF
  {
  }

  function WordAt(d: Digest): bv32 {
    OffsetIsInside(d);
    var o := Offset(d);
    Word(d[o], d[o + 1], d[o + 2], d[o + 3])
  }

  lemma TopBit(w: bv32)
    ensures w as nat == ((w >> 31) as nat) * 0x8000_0000 + ((w & 0x7FFF_FFFF) as nat)
  {
  }

  lemma LowBits(w: bv32)
    ensures (w & 0x7FFF_FFFF) as nat < 0x8000_0000
  {
    BelowAsInt(w & 0x7FFF_FFFF);
  }

  lemma BelowAsInt(x: bv32)
    requires x <= 0x7FFF_FFFF
    ensures x as nat < 0x8000_0000
  {
    assert (x as bv31) as nat == x as nat;
  }

  lemma MaskIsMod(w: bv32)
    ensures (w & 0x7FFF_FFFF) as nat == (w as nat) % 0x8000_0000
  {
    TopBit(w);
    LowBits(w);
    LowPart(w as nat, (w >> 31) as nat, (w & 0x7FFF_FFFF) as nat);
  }

  lemma LowPart(n: nat, high: nat, low: nat)
    requires n == high * 0x8000_0000 + low && low < 0x8000_0000
    ensures n % 0x8000_0000 == low
  {
  }

  /** `w` is the four bytes from the offset on, the first one on top. */
  predicate BigEndianAt(d: Digest, w: bv32) {
    OffsetIsInside(d);
    var o := Offset(d);
    HasBytes(w, d[o], d[o + 1], d[o + 2], d[o + 3])
  }

  lemma WordAtIsBigEndian(d: Digest)
    ensures BigEndianAt(d, WordAt(d))
  {
    OffsetIsInside(d);
    var o := Offset(d);
    WordIsBigEndian(d[o], d[o + 1], d[o + 2], d[o + 3]);
  }

  lemma ValueIsWordMod(d: Digest)
    ensures Value(d) as nat == (WordAt(d) as nat) % 0x8000_0000
  {
    OffsetIsInside(d);
    var o := Offset(d);
    CombineIsMaskedWord(d[o], d[o + 1], d[o + 2], d[o + 3]);
    MaskIsMod(WordAt(d));
  }

  /** The truncated value is the big-endian word of the four bytes from the offset on, modulo 2^31. */
  lemma TruncationIsWordMod(d: Digest)
    ensures BigEndianAt(d, WordAt(d)) && Value(d) as nat == (WordAt(d) as nat) % 0x8000_0000
  {
    WordAtIsBigEndian(d);
    ValueIsWordMod(d);
  }

  // ---------- six digits ----------

  function Pow10(k: nat): nat {
    if k == 0 then 1 else 10 * Pow10(k - 1)
  }

  /** `%0kd`. */
  function Digits(n: nat, k: nat): string {
    if k == 0 then "" else Digits(n / 10, k - 1) + [('0' as int + n % 10) as char]
  }

  predicate Decimal(s: string) {
    forall i :: 0 <= i < |s| ==> '0' <= s[i] <= '9'
  }

  function Parse(s: string): nat
    requires Decimal(s)
  {
    if s == "" then 0 else Parse(s[..|s| - 1]) * 10 + (s[|s| - 1] as int - '0' as int)
  }

  lemma {:induction false} DigitsParse(n: nat, k: nat)
    requires n < Pow10(k)
    ensures |Digits(n, k)| == k && Decimal(Digits(n, k)) && Parse(Digits(n, k)) == n
  {
    if k > 0 {
      DigitsParse(n / 10, k - 1);
      var s := Digits(n, k);
      assert s[..|s| - 1] == Digits(n / 10, k - 1);
    }
  }

  function CodeOf(d: Digest): string {
    Digits((Value(d) as nat) % 1_000_000, 6)
  }

  /** Six decimal digits that read as the word modulo 2^31 modulo 10^6, leading zeros included. */
  lemma CodeIsSixDigits(d: Digest)
    ensures |CodeOf(d)| == 6 && Decimal(CodeOf(d)) && Parse(CodeOf(d)) == (WordAt(d) as nat) % 0x8000_0000 % 1_000_000
  {
    TruncationIsWordMod(d);
    assert Pow10(6) == 1_000_000 by {
      assert Pow10(1) == 10 && Pow10(2) == 100 && Pow10(3) == 1000 && Pow10(4) == 10_000 && Pow10(5) == 100_000;
    }
    DigitsParse((Value(d) as nat) % 1_000_000, 6);
  }

  // ---------- the accepted time span ----------

  const SECOND: int := 1_000_000_000

  /** `t.Unix() / 30`: whole seconds round down, the division truncates toward zero. */
  function Period(t: int): int {
    var s := t / SECOND;
    if s >= 0 then s / 30 else -((-s) / 30)
  }

  function Counter(t: int): nat {
    Period(t) % 0x1_0000_0000_0000_0000
  }

  type Mac = nat -> Digest

  /** `None` is a secret that does not decode; its code is empty. */
  function Totp(secret: Option<Mac>, t: int): string {
    if secret.None? then "" else CodeOf(secret.value(Counter(t)))
  }

  /** A code made at any time is one of the three compared at any time within thirty seconds of it. */
  lemma WithinThirtySeconds(t: int, now: int)
    requires t - 30 * SECOND <= now <= t + 30 * SECOND
    ensures Period(t) in {Period(now - 30 * SECOND), Period(now), Period(now + 30 * SECOND)}
  {
  }

  function Near(secret: Option<Mac>, now: int, offset: int): string {
    Totp(secret, now + offset * 30 * SECOND)
  }

  predicate Matches(secret: Option<Mac>, code: string, now: int) {
    |code| == 6 && (code == Near(secret, now, -1) || code == Near(secret, now, 0) || code == Near(secret, now, 1))
  }

  method ValidTotp(secret: Option<Mac>, code: string, now: int) returns (valid: bool)
    ensures valid == Matches(secret, code, now)
  {
    if |code| != 6 { return false; }
    var offset := -1;
    while offset <= 1
      invariant -1 <= offset <= 2
      invariant offset > -1 ==> code != Near(secret, now, -1)
      invariant offset > 0 ==> code != Near(secret, now, 0)
      invariant offset > 1 ==> code != Near(secret, now, 1)
    {
      if Near(secret, now, offset) == code { return true; }
      offset := offset + 1;
    }
    return false;
  }

  /** So a code is accepted at every time within thirty seconds of the time it was made. */
  lemma AcceptedWithinThirtySeconds(mac: Mac, t: int, now: int)
    requires t - 30 * SECOND <= now <= t + 30 * SECOND
    ensures Matches(Some(mac), Totp(Some(mac), t), now)
  {
    WithinThirtySeconds(t, now);
    SixDigits(mac(Counter(t)));
  }

  lemma SixDigits(d: Digest)
    ensures |CodeOf(d)| == 6
  {
    DigitsLength((Value(d) as nat) % 1_000_000, 6);
  }

  lemma {:induction false} DigitsLength(n: nat, k: nat)
    ensures |Digits(n, k)| == k
  {
    if k > 0 { DigitsLength(n / 10, k - 1); }
  }

  // ---------- recovery codes ----------

  /**
   A login attempt after the password: whether a one-time password matched, the digest of the
   code, and whether the row update went through.
   */
  datatype Attempt = Attempt(totp: bool, digest: string, saved: bool)

  function RemoveFirst(hashes: seq<string>, h: string): seq<string> {
    if hashes == [] then [] else if hashes[0] == h then hashes[1..] else [hashes[0]] + RemoveFirst(hashes[1..], h)
  }

  predicate Accepted(hashes: seq<string>, a: Attempt) {
    a.totp || a.digest in hashes
  }

  function Used(hashes: seq<string>, a: Attempt): seq<string> {
    if !a.totp && a.digest in hashes then [a.digest] else []
  }

  /** The stored list afterwards; the error of the update is ignored, so the login goes through all the same. */
  function Stored(hashes: seq<string>, a: Attempt): seq<string> {
    if !a.totp && a.digest in hashes && a.saved then RemoveFirst(hashes, a.digest) else hashes
  }

  function StoredAfter(hashes: seq<string>, run: seq<Attempt>): seq<string>
    decreases |run|
  {
    if run == [] then hashes else StoredAfter(Stored(hashes, run[0]), run[1..])
  }

  function UsedIn(hashes: seq<string>, run: seq<Attempt>): seq<string>
    decreases |run|
  {
    if run == [] then [] else Used(hashes, run[0]) + UsedIn(Stored(hashes, run[0]), run[1..])
  }

  /** Recovery codes that let someone in without being struck off. */
  function LostIn(hashes: seq<string>, run: seq<Attempt>): seq<string>
    decreases |run|
  {
    if run == [] then []
    else
      var lost := if run[0].saved then [] else Used(hashes, run[0]);
      lost + LostIn(Stored(hashes, run[0]), run[1..])
  }

  lemma {:induction false} RemoveFirstTakesOne(hashes: seq<string>, h: string)
    requires h in hashes
    ensures multiset(RemoveFirst(hashes, h)) + multiset{h} == multiset(hashes)
  {
    assert hashes == [hashes[0]] + hashes[1..];
    if hashes[0] != h {
      RemoveFirstTakesOne(hashes[1..], h);
    }
  }

  lemma OneAttempt(hashes: seq<string>, a: Attempt)
    ensures multiset(Used(hashes, a)) + multiset(Stored(hashes, a)) ==
        multiset(hashes) + multiset(if a.saved then [] else Used(hashes, a))
  {
    if !a.totp && a.digest in hashes { RemoveFirstTakesOne(hashes, a.digest); }
  }

  lemma Balance(
    u: multiset<string>, s: multiset<string>, h: multiset<string>, l: multiset<string>,
    moreUsed: multiset<string>, left: multiset<string>, moreLost: multiset<string>)
    requires u + s == h + l && moreUsed + left == s + moreLost
    ensures (u + moreUsed) + left == h + (l + moreLost)
  {
    assert (u + moreUsed) + left == u + (moreUsed + left);
    assert u + (s + moreLost) == (u + s) + moreLost;
    assert (h + l) + moreLost == h + (l + moreLost);
  }

  /** Over any serial run, used plus remaining codes are the initial ones plus those whose update was lost. */
  lemma {:induction false} CodesAreConserved(hashes: seq<string>, run: seq<Attempt>)
    ensures multiset(UsedIn(hashes, run)) + multiset(StoredAfter(hashes, run)) ==
        multiset(hashes) + multiset(LostIn(hashes, run))
    decreases |run|
  {
    if run != [] {
      OneAttempt(hashes, run[0]);
      var next := Stored(hashes, run[0]);
      CodesAreConserved(next, run[1..]);
      Balance(
        multiset(Used(hashes, run[0])), multiset(next), multiset(hashes),
            multiset(if run[0].saved then [] else Used(hashes, run[0])),
        multiset(UsedIn(next, run[1..])), multiset(StoredAfter(hashes, run)), multiset(LostIn(next, run[1..])));
    }
  }

  /**
   No code is used more often than it was stored, exactly if what was used without being struck off
   is still there.
   */
  lemma ConsumedOnceWhenSaved(hashes: seq<string>, run: seq<Attempt>)
    ensures multiset(UsedIn(hashes, run)) <= multiset(hashes) <==>
        multiset(LostIn(hashes, run)) <= multiset(StoredAfter(hashes, run))
  {
    CodesAreConserved(hashes, run);
    Exchange(multiset(UsedIn(hashes, run)), multiset(StoredAfter(hashes, run)), multiset(hashes),
        multiset(LostIn(hashes, run)));
  }

  lemma Exchange(used: multiset<string>, left: multiset<string>, initial: multiset<string>, lost: multiset<string>)
    requires used + left == initial + lost
    ensures used <= initial <==> lost <= left
  {
    forall h ensures used[h] + left[h] == initial[h] + lost[h] {
      assert (used + left)[h] == (initial + lost)[h];
    }
  }

  /** The attempt presents the recovery code `h`. */
  predicate Presents(a: Attempt, h: string) {
    !a.totp && a.digest == h
  }

  /** The update for the first use of `h` was lost, and the code is presented again later. */
  ghost predicate ReusedAfterLoss(run: seq<Attempt>, h: string) {
    exists i, j :: 0 <= i < j < |run| && LostFirst(run, i, h) && Presents(run[j], h)
  }

  ghost predicate LostFirst(run: seq<Attempt>, i: nat, h: string)
    requires i < |run|
  {
    Presents(run[i], h) && !run[i].saved && forall k :: 0 <= k < i ==> !Presents(run[k], h)
  }

  ghost predicate DistinctCodes(hashes: seq<string>) {
    forall i, j :: 0 <= i < j < |hashes| ==> hashes[i] != hashes[j]
  }

  /**
   With distinct codes, each is consumed at most once over a serial run exactly if no code whose
   first use was not written down is presented again.
   */
  lemma ConsumedOnceUnlessReused(hashes: seq<string>, run: seq<Attempt>)
    requires DistinctCodes(hashes)
    ensures (forall h :: multiset(UsedIn(hashes, run))[h] <= 1) <==> forall h <- hashes :: !ReusedAfterLoss(run, h)
  {
    forall h ensures multiset(UsedIn(hashes, run))[h] <= 1 <==> h in hashes ==> !ReusedAfterLoss(run, h) {
      if h in hashes {
        UsesOf(hashes, run, h);
      } else {
        UnknownIsNeverUsed(hashes, run, h);
      }
    }
  }

  lemma {:induction false} UnknownIsNeverUsed(hashes: seq<string>, run: seq<Attempt>, h: string)
    requires h !in hashes
    ensures h !in UsedIn(hashes, run)
    decreases |run|
  {
    if run != [] {
      StoredIsWithin(hashes, run[0]);
      UnknownIsNeverUsed(Stored(hashes, run[0]), run[1..], h);
    }
  }

  lemma {:induction false} RemoveFirstOfDistinct(hashes: seq<string>, h: string)
    requires DistinctCodes(hashes)
    ensures DistinctCodes(RemoveFirst(hashes, h))
    ensures forall x :: x in RemoveFirst(hashes, h) <==> x in hashes && x != h
  {
    if hashes != [] {
      var rest := hashes[1..];
      assert hashes == [hashes[0]] + rest;
      assert hashes[0] !in rest by {
        assert forall k :: 0 <= k < |rest| ==> rest[k] == hashes[k + 1];
      }
      RemoveFirstOfDistinct(rest, h);
    }
  }

  lemma {:induction false} RemoveFirstIsWithin(hashes: seq<string>, h: string)
    ensures forall x :: x in RemoveFirst(hashes, h) ==> x in hashes
  {
    if hashes != [] {
      assert hashes == [hashes[0]] + hashes[1..];
      RemoveFirstIsWithin(hashes[1..], h);
    }
  }

  lemma StoredIsWithin(hashes: seq<string>, a: Attempt)
    ensures forall x :: x in Stored(hashes, a) ==> x in hashes
  {
    RemoveFirstIsWithin(hashes, a.digest);
  }

  ghost predicate PresentedIn(run: seq<Attempt>, h: string) {
    exists j :: 0 <= j < |run| && Presents(run[j], h)
  }

  lemma PresentedHead(run: seq<Attempt>, h: string)
    requires run != []
    ensures PresentedIn(run, h) <==> Presents(run[0], h) || PresentedIn(run[1..], h)
  {
    if PresentedIn(run[1..], h) {
      var j :| 0 <= j < |run[1..]| && Presents(run[1..][j], h);
      assert Presents(run[j + 1], h);
    }
    if j :| 0 <= j < |run| && Presents(run[j], h) {
      assert j > 0 ==> Presents(run[1..][j - 1], h);
    }
  }

  /** A reuse starts at the first presentation: either that is the head, or the head is not one. */
  lemma ReusedHead(run: seq<Attempt>, h: string)
    requires run != []
    ensures ReusedAfterLoss(run, h) <==>
      if Presents(run[0], h) then !run[0].saved && PresentedIn(run[1..], h) else ReusedAfterLoss(run[1..], h)
  {
    var rest := run[1..];
    if i, j :| 0 <= i < j < |run| && LostFirst(run, i, h) && Presents(run[j], h) {
      assert Presents(rest[j - 1], h);
      if !Presents(run[0], h) {
        LostFirstLater(run, i, h);
      }
    }
    if Presents(run[0], h) && !run[0].saved && PresentedIn(rest, h) {
      var j :| 0 <= j < |rest| && Presents(rest[j], h);
      assert LostFirst(run, 0, h) && Presents(run[j + 1], h);
    }
    if !Presents(run[0], h) && ReusedAfterLoss(rest, h) {
      var i, j :| 0 <= i < j < |rest| && LostFirst(rest, i, h) && Presents(rest[j], h);
      LostFirstLater(run, i + 1, h);
      assert Presents(run[j + 1], h);
    }
  }

  lemma LostFirstLater(run: seq<Attempt>, i: nat, h: string)
    requires 0 < i < |run| && !Presents(run[0], h)
    ensures LostFirst(run, i, h) <==> LostFirst(run[1..], i - 1, h)
  {
    var rest := run[1..];
    assert forall k :: 0 <= k < i - 1 ==> rest[k] == run[k + 1];
    assert forall k :: 0 < k < i ==> run[k] == rest[k - 1];
  }

  /** A stored code is used once if it is presented, and again only after a lost update. */
  lemma {:induction false} UsesOf(hashes: seq<string>, run: seq<Attempt>, h: string)
    requires DistinctCodes(hashes) && h in hashes
    ensures multiset(UsedIn(hashes, run))[h] >= 1 <==> PresentedIn(run, h)
    ensures multiset(UsedIn(hashes, run))[h] <= 1 <==> !ReusedAfterLoss(run, h)
    decreases |run|
  {
    if run != [] {
      var a, rest := run[0], run[1..];
      var next := Stored(hashes, a);
      RemoveFirstOfDistinct(hashes, a.digest);
      PresentedHead(run, h);
      ReusedHead(run, h);
      var more := UsedIn(next, rest);
      assert multiset(UsedIn(hashes, run)) == multiset(Used(hashes, a)) + multiset(more);
      if h in next {
        UsesOf(next, rest, h);
      } else {
        UnknownIsNeverUsed(next, rest, h);
      }
    }
  }

  /** A lost update lets the same single code in twice. */
  lemma LostUpdateReusesCode(h: string)
    ensures UsedIn([h], [Attempt(false, h, false), Attempt(false, h, true)]) == [h, h]
  {
    var run := [Attempt(false, h, false), Attempt(false, h, true)];
    assert run[1..] == [Attempt(false, h, true)];
    assert UsedIn([h], run[1..]) == [h] + UsedIn([], []);
  }

  class MfaRow {
    var secret: Option<Mac>
    var hashes: seq<string>

    constructor (secret: Option<Mac>, hashes: seq<string>)
      ensures this.secret == secret && this.hashes == hashes
    {
      this.secret, this.hashes := secret, hashes;
    }

    /** The loop over the stored digests; the match is cut out of the slice. */
    method VerifyMfa(code: string, hash: string -> string, now: int) returns (valid: bool, remaining: seq<string>)
      ensures valid == Accepted(hashes, Attempt(Matches(secret, code, now), hash(code), true))
      ensures remaining == Stored(hashes, Attempt(Matches(secret, code, now), hash(code), true))
    {
      var candidate := hash(code);
      var totp := ValidTotp(secret, code, now);
      if totp { return true, hashes; }
      var index := 0;
      while index < |hashes|
        invariant 0 <= index <= |hashes|
        invariant candidate !in hashes[..index]
      {
        if hashes[index] == candidate {
          CutIsRemoveFirst(hashes, candidate, index);
          return true, hashes[..index] + hashes[index + 1..];
        }
        assert hashes[..index + 1] == hashes[..index] + [hashes[index]];
        index := index + 1;
      }
      assert hashes[..index] == hashes;
      return false, hashes;
    }

    /** The second factor of a login. */
    method Login(code: string, hash: string -> string, now: int, saved: bool) returns (ok: bool)
      modifies this`hashes
      ensures ok == Accepted(old(hashes), Attempt(Matches(secret, code, now), hash(code), saved))
      ensures hashes == Stored(old(hashes), Attempt(Matches(secret, code, now), hash(code), saved))
    {
      var valid, remaining := VerifyMfa(code, hash, now);
      if !valid { return false; }
      if saved { hashes := remaining; }
      return true;
    }
  }

  lemma {:induction false} CutIsRemoveFirst(hashes: seq<string>, h: string, i: nat)
    requires i < |hashes| && hashes[i] == h && h !in hashes[..i]
    ensures hashes[..i] + hashes[i + 1..] == RemoveFirst(hashes, h)
  {
    if i > 0 {
      assert hashes[0] in hashes[..i] && hashes[1..][..i - 1] == hashes[1..i];
      forall x | x in hashes[1..i] ensures x in hashes[..i] {}
      CutIsRemoveFirst(hashes[1..], h, i - 1);
      assert hashes[..i] == [hashes[0]] + hashes[1..i];
      assert hashes[1..][i..] == hashes[i + 1..];
    }
  }
}
