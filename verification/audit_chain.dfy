/**
 * The in-memory audit chain: a bounded window of hash-linked entries, its verifier, and what a
 * successful verification proves. SHA-256 followed by hex encoding is an arbitrary function
 * `digest`: nothing below assumes that it is injective.
 */
module AuditChain {
  import opened Bytes
  import opened AuditPayload

  type Digest = Text -> RustString

  // The hash of an entry as a function of what it covers.
  type Seal = Payload -> RustString

  function SealWith(digest: Digest): Seal { p => digest(Encode(p)) }

  const MAX_AUDIT_ENTRIES: nat := 10_000

  datatype AuditEntry = AuditEntry(
    seqNo: u64,
    timestamp: RustString,
    agentId: RustString,
    action: AuditAction,
    detail: RustString,
    outcome: RustString,
    prevHash: RustString,
    hash: RustString)

  function PayloadOf(e: AuditEntry): Payload {
    Payload(e.seqNo, e.timestamp, e.agentId, e.action, e.detail, e.outcome, e.prevHash)
  }

  /** What the verifier sees of a chain. */
  datatype Window = Window(base: RustString, entries: seq<AuditEntry>, tip: RustString, nextSeq: u64)

  function Genesis(): RustString { seq(64, _ => 48) }

  function SaturatingAdd(n: u64, k: nat): u64 { if n + k <= U64_MAX then n + k else U64_MAX }

  /** The hash the entry at position i must name as its predecessor; for i == |entries|, the tip. */
  function HashBefore(w: Window, i: nat): RustString
    requires i <= |w.entries|
  {
    if i == 0 then w.base else w.entries[i - 1].hash
  }

  /** The sequence number expected at position i, counted from the oldest entry still held. */
  function ExpectedSeq(w: Window, i: nat): u64 {
    if w.entries == [] then w.nextSeq else SaturatingAdd(w.entries[0].seqNo, i)
  }

  ghost predicate EntryIntact(seal: Seal, w: Window, i: nat)
    requires i < |w.entries|
  {
    var e := w.entries[i];
    && e.seqNo == ExpectedSeq(w, i)
    && e.prevHash == HashBefore(w, i)
    && e.hash == seal(PayloadOf(e))
  }

  ghost predicate Intact(seal: Seal, w: Window) {
    && (forall i :: 0 <= i < |w.entries| ==> EntryIntact(seal, w, i))
    && w.tip == HashBefore(w, |w.entries|)
    && w.nextSeq == ExpectedSeq(w, |w.entries|)
  }

  datatype ChainError =
    | SequenceMismatch(seqNo: u64)
    | PrevHashMismatch(seqNo: u64)
    | HashMismatch(seqNo: u64)
    | TipMismatch
    | NextSequenceMismatch

  /** The error names the first entry that is not intact and its first broken part. */
  ghost predicate Diagnoses(seal: Seal, w: Window, error: ChainError) {
    if exists i :: 0 <= i < |w.entries| && !EntryIntact(seal, w, i) then
      exists i :: 0 <= i < |w.entries| && !EntryIntact(seal, w, i)
        && (forall j :: 0 <= j < i ==> EntryIntact(seal, w, j))
        && error == EntryFault(w, i)
    else if w.tip != HashBefore(w, |w.entries|) then error == TipMismatch
    else w.nextSeq != ExpectedSeq(w, |w.entries|) && error == NextSequenceMismatch
  }

  function EntryFault(w: Window, i: nat): ChainError
    requires i < |w.entries|
  {
    var e := w.entries[i];
    if e.seqNo != ExpectedSeq(w, i) then SequenceMismatch(e.seqNo)
    else if e.prevHash != HashBefore(w, i) then PrevHashMismatch(e.seqNo)
    else HashMismatch(e.seqNo)
  }

  // ---- The unbounded log the window stands for ----

  /** Position i of a log that started at genesis and never dropped an entry. */
  ghost predicate LoggedAt(seal: Seal, log: seq<AuditEntry>, i: nat)
    requires i < |log|
  {
    var e := log[i];
    && e.seqNo == SaturatingAdd(1, i)
    && e.prevHash == LogHash(log, i)
    && e.hash == seal(PayloadOf(e))
  }

  function LogHash(log: seq<AuditEntry>, i: nat): RustString
    requires i <= |log|
  {
    if i == 0 then Genesis() else log[i - 1].hash
  }

  ghost predicate IsLog(seal: Seal, log: seq<AuditEntry>) {
    forall i :: 0 <= i < |log| ==> LoggedAt(seal, log, i)
  }

  function Dropped(log: seq<AuditEntry>): nat {
    if |log| <= MAX_AUDIT_ENTRIES then 0 else |log| - MAX_AUDIT_ENTRIES
  }

  /** The window that keeps the last MAX_AUDIT_ENTRIES records of a log. */
  function WindowOf(log: seq<AuditEntry>): Window {
    Window(LogHash(log, Dropped(log)), log[Dropped(log)..], LogHash(log, |log|), SaturatingAdd(1, |log|))
  }

  lemma LoggedEntryIsIntact(seal: Seal, log: seq<AuditEntry>, i: nat)
    requires IsLog(seal, log) && Dropped(log) + i < |log|
    ensures EntryIntact(seal, WindowOf(log), i)
  {
    assert LoggedAt(seal, log, Dropped(log)) && LoggedAt(seal, log, Dropped(log) + i);
  }

  /** The window of any genuine log verifies, also after the sequence number has saturated. */
  lemma WindowOfLogIsIntact(seal: Seal, log: seq<AuditEntry>)
    requires IsLog(seal, log)
    ensures Intact(seal, WindowOf(log))
  {
    var w := WindowOf(log);
    var d := Dropped(log);
    forall i | 0 <= i < |w.entries|
      ensures EntryIntact(seal, w, i)
    {
      LoggedEntryIsIntact(seal, log, i);
    }
    if w.entries != [] {
      assert LoggedAt(seal, log, d);
    }
  }

  lemma AppendKeepsLog(seal: Seal, log: seq<AuditEntry>, e: AuditEntry)
    requires IsLog(seal, log)
    requires e.seqNo == SaturatingAdd(1, |log|) && e.prevHash == LogHash(log, |log|)
    requires e.hash == seal(PayloadOf(e))
    ensures IsLog(seal, log + [e])
  {
    var longer := log + [e];
    forall i | 0 <= i < |longer|
      ensures LoggedAt(seal, longer, i)
    {
      if i < |log| { assert LoggedAt(seal, log, i); }
    }
  }

  /** What one more record does to the window: it is pushed, and at most the oldest entry is evicted. */
  lemma WindowOfAppend(log: seq<AuditEntry>, e: AuditEntry)
    ensures var entries := WindowOf(log).entries + [e];
      WindowOf(log + [e]) ==
        if |entries| > MAX_AUDIT_ENTRIES
        then Window(entries[0].hash, entries[1..], e.hash, SaturatingAdd(1, |log| + 1))
        else Window(WindowOf(log).base, entries, e.hash, SaturatingAdd(1, |log| + 1))
  {
  }

  /** Entries are numbered from 1, one by one, up to the largest u64, where numbering stays. */
  lemma LogIsNumbered(seal: Seal, log: seq<AuditEntry>)
    requires IsLog(seal, log)
    ensures forall i :: 0 <= i < |log| ==> log[i].seqNo == Min(i + 1, 0xFFFF_FFFF_FFFF_FFFF)
    ensures forall i, j :: 0 <= i < j < |log| && log[i].seqNo < 0xFFFF_FFFF_FFFF_FFFF ==> log[i].seqNo < log[j].seqNo
    ensures WindowOf(log).nextSeq == Min(|log| + 1, 0xFFFF_FFFF_FFFF_FFFF)
  {
    forall i | 0 <= i < |log| ensures log[i].seqNo == Min(i + 1, 0xFFFF_FFFF_FFFF_FFFF) {
      assert LoggedAt(seal, log, i);
    }
  }

  /** What the verifier accepts is numbered like that, from its oldest entry on. */
  lemma IntactIsNumbered(seal: Seal, w: Window)
    requires Intact(seal, w) && w.entries != []
    ensures forall i :: 0 <= i < |w.entries| ==>
      w.entries[i].seqNo == Min(w.entries[0].seqNo + i, 0xFFFF_FFFF_FFFF_FFFF)
    ensures w.nextSeq == Min(w.entries[0].seqNo + |w.entries|, 0xFFFF_FFFF_FFFF_FFFF)
  {
    forall i | 0 <= i < |w.entries|
      ensures w.entries[i].seqNo == Min(w.entries[0].seqNo + i, 0xFFFF_FFFF_FFFF_FFFF)
    {
      assert EntryIntact(seal, w, i);
    }
  }

  // ---- Tamper evidence ----

  function Suffix(entries: seq<AuditEntry>, n: nat): seq<AuditEntry>
    requires n <= |entries|
  {
    entries[|entries| - n..]
  }

  /** Counted from the newest, the last k entries of both windows are the same. */
  ghost predicate AgreeBack(a: Window, b: Window, k: nat)
    requires k <= |a.entries| <= |b.entries|
  {
    && (forall i :: |a.entries| - k <= i < |a.entries| ==>
          a.entries[i] == b.entries[|b.entries| - |a.entries| + i])
    && HashBefore(a, |a.entries| - k) == HashBefore(b, |b.entries| - k)
  }

  /** The k-th entries from the end hold different payloads with the same hash. */
  ghost predicate CollideBack(seal: Seal, a: Window, b: Window, k: nat)
    requires k <= |a.entries| <= |b.entries|
  {
    k > 0 &&
    var p, q := PayloadOf(a.entries[|a.entries| - k]), PayloadOf(b.entries[|b.entries| - k]);
    p != q && seal(p) == seal(q)
  }

  lemma AgreementGrows(seal: Seal, a: Window, b: Window, k: nat)
    requires Intact(seal, a) && Intact(seal, b)
    requires 0 < k <= |a.entries| <= |b.entries| && AgreeBack(a, b, k - 1) && !CollideBack(seal, a, b, k)
    ensures AgreeBack(a, b, k)
  {
    var i, j := |a.entries| - k, |b.entries| - k;
    assert EntryIntact(seal, a, i) && EntryIntact(seal, b, j);
    assert a.entries[i] == b.entries[j];
  }

  /** Walks both windows back from the common tip, to the first pair of payloads that differ but share a hash. */
  lemma {:induction false} TraceBack(seal: Seal, a: Window, b: Window, k: nat) returns (at: nat)
    requires Intact(seal, a) && Intact(seal, b) && a.tip == b.tip
    requires k <= |a.entries| <= |b.entries|
    ensures at <= k && (CollideBack(seal, a, b, at) || AgreeBack(a, b, k))
  {
    at := 0;
    if k > 0 {
      at := TraceBack(seal, a, b, k - 1);
      if !CollideBack(seal, a, b, at) {
        at := k;
        if !CollideBack(seal, a, b, at) { AgreementGrows(seal, a, b, k); }
      }
    }
  }

  lemma AgreementIsSuffix(a: Window, b: Window)
    requires |a.entries| <= |b.entries| && AgreeBack(a, b, |a.entries|)
    ensures a.entries == Suffix(b.entries, |a.entries|) && a.base == HashBefore(b, |b.entries| - |a.entries|)
  {
  }

  /**
   * Two windows that both verify and end in the same tip agree, entry by entry, on everything the
   * shorter one holds, including the hash before its oldest entry - or the proof hands over two
   * different byte strings with the same digest.
   */
  lemma TamperEvidence(digest: Digest, a: Window, b: Window) returns (x: Text, y: Text)
    requires Intact(SealWith(digest), a) && Intact(SealWith(digest), b)
    requires a.tip == b.tip && |a.entries| <= |b.entries|
    ensures
      || (x != y && digest(x) == digest(y))
      || (a.entries == Suffix(b.entries, |a.entries|)
          && a.base == HashBefore(b, |b.entries| - |a.entries|))
  {
    hide Intact, Encode;
    x, y := [], [];
    var k := TraceBack(SealWith(digest), a, b, |a.entries|);
    if AgreeBack(a, b, |a.entries|) { AgreementIsSuffix(a, b); }
    if CollideBack(SealWith(digest), a, b, k) {
      var p, q := PayloadOf(a.entries[|a.entries| - k]), PayloadOf(b.entries[|b.entries| - k]);
      EncodingIsInjective(p, q);
      x, y := Encode(p), Encode(q);
    }
  }

  /** No two entries at the same place hash alike unless they hold the same payload. */
  ghost predicate NoCollisionInPlace(digest: Digest, a: Window, b: Window)
    requires |a.entries| == |b.entries|
  {
    forall i :: 0 <= i < |a.entries| ==>
      var p, q := PayloadOf(a.entries[i]), PayloadOf(b.entries[i]);
      SealWith(digest)(p) == SealWith(digest)(q) ==> p == q
  }

  /** Nothing was changed, but for the next sequence number of a window without entries. */
  predicate Unchanged(a: Window, b: Window) {
    a.entries == b.entries && a.base == b.base && (b.entries == [] || a.nextSeq == b.nextSeq)
  }

  lemma UnchangedIsIntact(seal: Seal, genuine: Window, altered: Window)
    requires Intact(seal, genuine) && Unchanged(altered, genuine) && altered.tip == genuine.tip
    ensures Intact(seal, altered)
  {
    forall i | 0 <= i < |altered.entries| ensures EntryIntact(seal, altered, i) {
      assert EntryIntact(seal, genuine, i);
    }
  }

  /** Agreement all the way back leaves nothing that could differ. */
  lemma AgreementIsUnchanged(seal: Seal, genuine: Window, altered: Window)
    requires Intact(seal, genuine) && Intact(seal, altered) && |altered.entries| == |genuine.entries|
    requires AgreeBack(altered, genuine, |genuine.entries|)
    ensures Unchanged(altered, genuine)
  {
    hide EntryIntact;
  }

  /**
   * A window put in place of a verified one, with as many entries and the same tip, verifies if and
   * only if nothing was changed - unless the change found a collision.
   */
  lemma ChangedWindowFails(digest: Digest, genuine: Window, altered: Window)
    requires Intact(SealWith(digest), genuine)
    requires |altered.entries| == |genuine.entries| && altered.tip == genuine.tip
    requires NoCollisionInPlace(digest, altered, genuine)
    ensures Intact(SealWith(digest), altered) <==> Unchanged(altered, genuine)
  {
    hide Intact, Unchanged, AgreeBack;
    var seal, n := SealWith(digest), |genuine.entries|;
    if Intact(seal, altered) {
      var k := TraceBack(seal, altered, genuine, n);
      if CollideBack(seal, altered, genuine, k) { assert false; }
      AgreementIsUnchanged(seal, genuine, altered);
    } else if Unchanged(altered, genuine) {
      UnchangedIsIntact(seal, genuine, altered);
    }
  }

  // ---- The running chain ----

  lemma ConcatAssociates(a: Text, b: Text, c: Text)
    ensures a + (b + c) == (a + b) + c
  {
  }

  lemma {:induction false} FieldAppended(fields: seq<RustString>, value: RustString)
    ensures EncodeFields(fields + [value]) == EncodeFields(fields) + EncodeField(value)
  {
    var all := fields + [value];
    if fields == [] {
      assert all == [value] && all[1..] == [];
    } else {
      FieldAppended(fields[1..], value);
      assert all[0] == fields[0] && all[1..] == fields[1..] + [value];
      ConcatAssociates(EncodeField(fields[0]), EncodeFields(fields[1..]), EncodeField(value));
    }
  }

  /** The streaming hasher: `fed` is what the updates have written so far. */
  class Hasher {
    const digest: Digest
    var fed: Text

    ghost var header: Text
    ghost var fields: seq<RustString>

    ghost predicate Valid()
      reads this
    {
      fed == header + EncodeFields(fields)
    }

    constructor (digest: Digest)
      ensures Valid() && this.digest == digest && header == [] && fields == []
    {
      this.digest := digest;
      fed, header, fields := [], [], [];
    }

    method Update(bytes: Text)
      requires Valid() && fields == []
      modifies this
      ensures Valid() && header == old(header) + bytes && fields == []
    {
      fed := fed + bytes;
      header := header + bytes;
    }

    method HashStringField(value: RustString)
      requires Valid()
      modifies this
      ensures Valid() && header == old(header) && fields == old(fields) + [value]
    {
      FieldAppended(fields, value);
      ConcatAssociates(header, EncodeFields(fields), EncodeField(value));
      ConcatAssociates(fed, LittleEndian(|value|, 8), value);
      fed := fed + LittleEndian(|value|, 8);
      fed := fed + value;
      fields := fields + [value];
    }

    method Finalize() returns (hash: RustString)
      requires Valid()
      ensures hash == digest(header + EncodeFields(fields))
    {
      hash := digest(fed);
    }
  }

  method ComputeEntryHash(digest: Digest, p: Payload) returns (hash: RustString)
    ensures hash == digest(Encode(p))
  {
    var hasher := new Hasher(digest);
    hasher.Update(LittleEndian(p.seqNo, 8));
    hasher.HashStringField(p.timestamp);
    hasher.HashStringField(p.agentId);
    hasher.HashStringField(ActionName(p.action));
    hasher.HashStringField(p.detail);
    hasher.HashStringField(p.outcome);
    hasher.HashStringField(p.prevHash);
    hash := hasher.Finalize();
    assert hasher.header == LittleEndian(p.seqNo, 8);
    assert hasher.fields == Fields(p);
  }

  class AuditHashChain {
    const digest: Digest
    // Trimming, newline replacement and the character cap of recorded texts.
    const sanitize: (RustString, nat) -> RustString

    var entries: seq<AuditEntry>
    var tip: RustString
    var windowBaseHash: RustString
    var nextSeq: u64

    ghost var log: seq<AuditEntry>  // every record ever made, oldest first

    ghost function Snapshot(): Window
      reads this
    {
      Window(windowBaseHash, entries, tip, nextSeq)
    }

    /** The bounded chain refines the unbounded log. */
    ghost predicate Valid()
      reads this
    {
      IsLog(SealWith(digest), log) && Snapshot() == WindowOf(log)
    }

    constructor (digest: Digest, sanitize: (RustString, nat) -> RustString)
      ensures Valid() && log == []
      ensures this.digest == digest && this.sanitize == sanitize
    {
      this.digest, this.sanitize := digest, sanitize;
      entries := [];
      tip, windowBaseHash := Genesis(), Genesis();
      nextSeq := 1;
      log := [];
    }

    method Record(timestamp: RustString, agentId: RustString, action: AuditAction, detail: RustString,
                  outcome: RustString)
      returns (entry: AuditEntry)
      requires Valid()
      modifies this
      ensures Valid()
      ensures log == old(log) + [entry]
      ensures entry.seqNo == Min(|old(log)| + 1, 0xFFFF_FFFF_FFFF_FFFF)
      ensures PayloadOf(entry) == Payload(entry.seqNo, timestamp, sanitize(agentId, 120), action,
                                          sanitize(detail, 512), sanitize(outcome, 120), LogHash(old(log), |old(log)|))
    {
      hide Encode, EncodeFields;
      var payload := Payload(nextSeq, timestamp, sanitize(agentId, 120), action,
                             sanitize(detail, 512), sanitize(outcome, 120), tip);
      var hash := ComputeEntryHash(digest, payload);
      entry := AuditEntry(payload.seqNo, payload.timestamp, payload.agentId, payload.action,
                          payload.detail, payload.outcome, payload.prevHash, hash);
      tip := hash;
      nextSeq := SaturatingAdd(nextSeq, 1);
      entries := entries + [entry];
      if |entries| > MAX_AUDIT_ENTRIES {
        windowBaseHash := entries[0].hash;
        entries := entries[1..];
      }
      AppendKeepsLog(SealWith(digest), log, entry);
      WindowOfAppend(log, entry);
      log := log + [entry];
    }

    /** Needs no invariant: it judges whatever the fields hold. */
    method VerifyIntegrity() returns (r: Result<(), ChainError>)
      ensures r.Ok? <==> Intact(SealWith(digest), Snapshot())
      ensures r.Err? ==> Diagnoses(SealWith(digest), Snapshot(), r.error)
    {
      hide Encode, EncodeFields;
      ghost var w := Snapshot();
      var expectedPrev := windowBaseHash;
      var expectedSeq := if entries == [] then nextSeq else entries[0].seqNo;
      for i := 0 to |entries|
        invariant expectedPrev == HashBefore(w, i) && expectedSeq == ExpectedSeq(w, i)
        invariant forall j :: 0 <= j < i ==> EntryIntact(SealWith(digest), w, j)
      {
        var e := entries[i];
        assert e == w.entries[i];
        if e.seqNo != expectedSeq {
          assert !EntryIntact(SealWith(digest), w, i);
          return Err(SequenceMismatch(e.seqNo));
        }
        if e.prevHash != expectedPrev {
          assert !EntryIntact(SealWith(digest), w, i);
          return Err(PrevHashMismatch(e.seqNo));
        }
        var expectedHash := ComputeEntryHash(digest, PayloadOf(e).(prevHash := expectedPrev));
        if e.hash != expectedHash {
          assert !EntryIntact(SealWith(digest), w, i);
          return Err(HashMismatch(e.seqNo));
        }
        expectedPrev := e.hash;
        expectedSeq := SaturatingAdd(expectedSeq, 1);
      }
      if tip != expectedPrev {
        return Err(TipMismatch);
      }
      if nextSeq != expectedSeq {
        return Err(NextSequenceMismatch);
      }
      r := Ok(());
    }

    method Recent(n: nat) returns (r: seq<AuditEntry>)
      requires Valid()
      ensures r == Suffix(log, Min(n, Min(|log|, MAX_AUDIT_ENTRIES)))
    {
      if n == 0 || entries == [] {
        return [];
      }
      var start := Max(|entries| - n, 0);
      r := entries[start..];
    }

    method TipHash() returns (r: RustString)
      requires Valid()
      ensures r == if log == [] then Genesis() else log[|log| - 1].hash
    {
      r := tip;
    }
  }

  datatype AuditRequest = AuditRequest(
    timestamp: RustString, agentId: RustString, action: AuditAction, detail: RustString, outcome: RustString)

  /** A chain that was only ever changed by Record, however often, passes its own verification. */
  method RecordAllThenVerify(chain: AuditHashChain, requests: seq<AuditRequest>) returns (r: Result<(), ChainError>)
    requires chain.Valid()
    modifies chain
    ensures chain.Valid() && r.Ok?
    ensures |chain.log| == |old(chain.log)| + |requests| && old(chain.log) <= chain.log
  {
    for i := 0 to |requests|
      invariant chain.Valid()
      invariant |chain.log| == |old(chain.log)| + i && old(chain.log) <= chain.log
    {
      var q := requests[i];
      var _ := chain.Record(q.timestamp, q.agentId, q.action, q.detail, q.outcome);
    }
    WindowOfLogIsIntact(SealWith(chain.digest), chain.log);
    r := chain.VerifyIntegrity();
  }
}
