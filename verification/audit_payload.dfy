/** The byte string that is hashed for one audit entry, and a decoder that undoes it. */
module AuditPayload {
  import opened Bytes

  const U64_MAX: nat := 0xFFFF_FFFF_FFFF_FFFF
  // A Rust allocation never exceeds isize::MAX bytes.
  const ISIZE_MAX: nat := 0x7FFF_FFFF_FFFF_FFFF

  type u64 = n: nat | n <= 0xFFFF_FFFF_FFFF_FFFF

  type RustString = s: Text | |s| <= 0x7FFF_FFFF_FFFF_FFFF witness []

  datatype AuditAction =
    | ToolInvoke | ShellExec | NetworkAccess | AgentSpawn | AgentMessage
    | MemoryAccess | FileAccess | AuthAttempt | ConfigChange

  /** Everything the digest of an entry covers; the digest itself is the entry's remaining field. */
  datatype Payload = Payload(
    seqNo: u64,
    timestamp: RustString,
    agentId: RustString,
    action: AuditAction,
    detail: RustString,
    outcome: RustString,
    prevHash: RustString)

  function ActionName(a: AuditAction): RustString {
    match a
    case ToolInvoke => Ascii("tool_invoke")
    case ShellExec => Ascii("shell_exec")
    case NetworkAccess => Ascii("network_access")
    case AgentSpawn => Ascii("agent_spawn")
    case AgentMessage => Ascii("agent_message")
    case MemoryAccess => Ascii("memory_access")
    case FileAccess => Ascii("file_access")
    case AuthAttempt => Ascii("auth_attempt")
    case ConfigChange => Ascii("config_change")
  }

  const ACTIONS: seq<AuditAction> := [
    ToolInvoke, ShellExec, NetworkAccess, AgentSpawn, AgentMessage,
    MemoryAccess, FileAccess, AuthAttempt, ConfigChange]

  function ParseAction(name: Text, candidates: seq<AuditAction> := ACTIONS): Option<AuditAction> {
    if candidates == [] then None
    else if ActionName(candidates[0]) == name then Some(candidates[0])
    else ParseAction(name, candidates[1..])
  }

  // ---- Fixed-width integers ----

  function Power256(k: nat): nat { if k == 0 then 1 else 256 * Power256(k - 1) }

  /** n as k little-endian bytes. */
  function LittleEndian(n: nat, k: nat): Text {
    if k == 0 then [] else [(n % 256) as byte] + LittleEndian(n / 256, k - 1)
  }

  function FromLittleEndian(s: Text): nat {
    if s == [] then 0 else s[0] as nat + 256 * FromLittleEndian(s[1..])
  }

  lemma {:induction false} LittleEndianRoundTrip(n: nat, k: nat)
    requires n < Power256(k)
    ensures |LittleEndian(n, k)| == k
    ensures FromLittleEndian(LittleEndian(n, k)) == n
  {
    if k > 0 {
      LittleEndianRoundTrip(n / 256, k - 1);
      assert LittleEndian(n, k)[1..] == LittleEndian(n / 256, k - 1);
    }
  }

  lemma {:induction false} FromLittleEndianRoundTrip(s: Text)
    ensures FromLittleEndian(s) < Power256(|s|)
    ensures LittleEndian(FromLittleEndian(s), |s|) == s
  {
    if s != [] {
      FromLittleEndianRoundTrip(s[1..]);
      var rest := FromLittleEndian(s[1..]);
      var n := s[0] as nat + 256 * rest;
      assert n % 256 == s[0] as nat && n / 256 == rest;
    }
  }

  lemma EightBytesHoldU64()
    ensures Power256(8) == U64_MAX + 1
  {
  }

  // ---- Length-prefixed fields ----

  function EncodeField(value: RustString): Text { LittleEndian(|value|, 8) + value }

  /** Splits one field off the front: its value and what follows. */
  function DecodeField(s: Text): Option<(RustString, Text)> {
    if |s| < 8 then None
    else
      var len := FromLittleEndian(s[..8]);
      if len > ISIZE_MAX || 8 + len > |s| then None else Some((s[8..8 + len], s[8 + len..]))
  }

  lemma FieldRoundTrip(value: RustString, rest: Text)
    ensures DecodeField(EncodeField(value) + rest) == Some((value, rest))
  {
    hide LittleEndian, FromLittleEndian;
    EightBytesHoldU64();
    LittleEndianRoundTrip(|value|, 8);
    var s := EncodeField(value) + rest;
    assert s[..8] == LittleEndian(|value|, 8);
    assert s[8..8 + |value|] == value && s[8 + |value|..] == rest;
  }

  lemma DecodedFieldIsEncoding(s: Text)
    ensures DecodeField(s).Some? ==>
      s == EncodeField(DecodeField(s).value.0) + DecodeField(s).value.1
  {
    hide LittleEndian, FromLittleEndian;
    if DecodeField(s).Some? {
      FromLittleEndianRoundTrip(s[..8]);
      var len := FromLittleEndian(s[..8]);
      assert s == s[..8] + s[8..8 + len] + s[8 + len..];
    }
  }

  function EncodeFields(fields: seq<RustString>): Text {
    if fields == [] then [] else EncodeField(fields[0]) + EncodeFields(fields[1..])
  }

  /** Reads exactly n fields and nothing after them. */
  function DecodeFields(s: Text, n: nat): (r: Option<seq<RustString>>)
    ensures r.Some? ==> |r.value| == n
  {
    if n == 0 then (if s == [] then Some([]) else None)
    else
      match DecodeField(s)
      case None => None
      case Some((value, rest)) =>
        match DecodeFields(rest, n - 1)
        case None => None
        case Some(values) => Some([value] + values)
  }

  lemma {:induction false} FieldsRoundTrip(fields: seq<RustString>)
    ensures DecodeFields(EncodeFields(fields), |fields|) == Some(fields)
  {
    if fields != [] {
      FieldRoundTrip(fields[0], EncodeFields(fields[1..]));
      FieldsRoundTrip(fields[1..]);
      assert [fields[0]] + fields[1..] == fields;
    }
  }

  lemma {:induction false} DecodedFieldsAreEncoding(s: Text, n: nat)
    ensures DecodeFields(s, n).Some? ==> EncodeFields(DecodeFields(s, n).value) == s
  {
    if n > 0 && DecodeFields(s, n).Some? {
      DecodedFieldIsEncoding(s);
      var (value, rest) := DecodeField(s).value;
      DecodedFieldsAreEncoding(rest, n - 1);
      assert DecodeFields(s, n).value[1..] == DecodeFields(rest, n - 1).value;
    }
  }

  // ---- The payload ----

  function Fields(p: Payload): seq<RustString> {
    [p.timestamp, p.agentId, ActionName(p.action), p.detail, p.outcome, p.prevHash]
  }

  function Encode(p: Payload): Text { LittleEndian(p.seqNo, 8) + EncodeFields(Fields(p)) }

  function Decode(s: Text): Option<Payload> {
    if |s| < 8 || FromLittleEndian(s[..8]) > U64_MAX then None
    else
      match DecodeFields(s[8..], 6)
      case None => None
      case Some(f) =>
        match ParseAction(f[2])
        case None => None
        case Some(a) => Some(Payload(FromLittleEndian(s[..8]), f[0], f[1], a, f[3], f[4], f[5]))
  }

  lemma {:induction false} ParsedActionHasName(name: Text, candidates: seq<AuditAction>)
    ensures ParseAction(name, candidates).Some? ==> ActionName(ParseAction(name, candidates).value) == name
  {
    if candidates != [] { ParsedActionHasName(name, candidates[1..]); }
  }

  lemma {:induction false} KnownNameIsParsed(a: AuditAction, candidates: seq<AuditAction>)
    requires a in candidates
    ensures ParseAction(ActionName(a), candidates).Some?
  {
    if ActionName(candidates[0]) != ActionName(a) {
      assert a in candidates[1..];
      KnownNameIsParsed(a, candidates[1..]);
    }
  }

  lemma ActionNamesDiffer(a: AuditAction, b: AuditAction)
    ensures ActionName(a) == ActionName(b) ==> a == b
  {
    // Every two names differ in length or in their first letter.
    assert |ActionName(a)| != |ActionName(b)| || ActionName(a)[0] != ActionName(b)[0] || a == b;
  }

  lemma ActionRoundTrip(a: AuditAction)
    ensures ParseAction(ActionName(a)) == Some(a)
  {
    assert a in ACTIONS by {
      assert forall i :: 0 <= i < |ACTIONS| ==> ACTIONS[i] in ACTIONS;
      assert ACTIONS[0] == ToolInvoke && ACTIONS[1] == ShellExec && ACTIONS[2] == NetworkAccess;
      assert ACTIONS[3] == AgentSpawn && ACTIONS[4] == AgentMessage && ACTIONS[5] == MemoryAccess;
      assert ACTIONS[6] == FileAccess && ACTIONS[7] == AuthAttempt && ACTIONS[8] == ConfigChange;
    }
    KnownNameIsParsed(a, ACTIONS);
    ParsedActionHasName(ActionName(a), ACTIONS);
    ActionNamesDiffer(ParseAction(ActionName(a)).value, a);
  }

  /** The decoder undoes the encoding of every payload ... */
  lemma PayloadRoundTrip(p: Payload)
    ensures Decode(Encode(p)) == Some(p)
  {
    EightBytesHoldU64();
    LittleEndianRoundTrip(p.seqNo, 8);
    FieldsRoundTrip(Fields(p));
    ActionRoundTrip(p.action);
    assert Encode(p)[..8] == LittleEndian(p.seqNo, 8);
    assert Encode(p)[8..] == EncodeFields(Fields(p));
  }

  /** ... and accepts nothing but encodings. */
  lemma DecodedPayloadIsEncoding(s: Text)
    ensures Decode(s).Some? ==> Encode(Decode(s).value) == s
  {
    if Decode(s).Some? {
      FromLittleEndianRoundTrip(s[..8]);
      DecodedFieldsAreEncoding(s[8..], 6);
      var f := DecodeFields(s[8..], 6).value;
      ParsedActionHasName(f[2], ACTIONS);
      assert Fields(Decode(s).value) == f;
      assert s == s[..8] + s[8..];
    }
  }

  /** Different payloads never share their hashed bytes. */
  lemma EncodingIsInjective(p: Payload, q: Payload)
    ensures Encode(p) == Encode(q) <==> p == q
  {
    PayloadRoundTrip(p);
    PayloadRoundTrip(q);
  }

  // ---- The bytes themselves ----

  lemma SmallNumber(n: nat)
    requires n < 0x1_0000
    ensures LittleEndian(n, 8) == [(n % 256) as byte, (n / 256) as byte, 0, 0, 0, 0, 0, 0]
  {
    assert LittleEndian(0, 4) == [0, 0, 0, 0] by { assert LittleEndian(0, 2) == [0, 0]; }
    assert LittleEndian(0, 6) == [0, 0, 0, 0, 0, 0] by { assert LittleEndian(0, 5) == [0, 0, 0, 0, 0]; }
  }

  lemma SmallField(value: RustString)
    requires |value| < 256
    ensures EncodeField(value) == [|value| as byte, 0, 0, 0, 0, 0, 0, 0] + value
  {
    SmallNumber(|value|);
  }

  lemma FirstField(a: RustString, rest: seq<RustString>)
    ensures EncodeFields([a] + rest) == EncodeField(a) + EncodeFields(rest)
  {
    assert ([a] + rest)[1..] == rest;
  }

  lemma SixFields(a: RustString, b: RustString, c: RustString, d: RustString, e: RustString, f: RustString)
    ensures EncodeFields([a, b, c, d, e, f])
      == EncodeField(a) + (EncodeField(b) + (EncodeField(c) + (EncodeField(d) + (EncodeField(e) + EncodeField(f)))))
  {
    hide EncodeField, EncodeFields;
    FirstField(a, [b, c, d, e, f]);
    FirstField(b, [c, d, e, f]);
    FirstField(c, [d, e, f]);
    FirstField(d, [e, f]);
    FirstField(e, [f]);
    OneField(f);
    assert [a] + [b, c, d, e, f] == [a, b, c, d, e, f] && [b] + [c, d, e, f] == [b, c, d, e, f];
    assert [c] + [d, e, f] == [c, d, e, f] && [d] + [e, f] == [d, e, f] && [e] + [f] == [e, f];
  }

  lemma OneField(f: RustString)
    ensures EncodeFields([f]) == EncodeField(f)
  {
    assert [f][1..] == [] && EncodeField(f) + [] == EncodeField(f);
  }

  /** Where each field of an entry stands: the number, time, agent, action, detail, outcome, previous hash. */
  lemma FieldOrder(p: Payload)
    ensures Encode(p)
      == LittleEndian(p.seqNo, 8)
         + (EncodeField(p.timestamp) + (EncodeField(p.agentId) + (EncodeField(ActionName(p.action))
         + (EncodeField(p.detail) + (EncodeField(p.outcome) + EncodeField(p.prevHash))))))
  {
    hide LittleEndian, EncodeField, EncodeFields;
    SixFields(p.timestamp, p.agentId, ActionName(p.action), p.detail, p.outcome, p.prevHash);
  }

  /** One entry spelled out in bytes. */
  lemma EncodingOfSample()
    ensures Encode(Payload(258, Ascii("now"), Ascii("me"), ShellExec, Ascii("ls"), Ascii("ok"), Ascii("0")))
      == [2, 1, 0, 0, 0, 0, 0, 0]
         + (([3, 0, 0, 0, 0, 0, 0, 0] + Ascii("now"))
         + (([2, 0, 0, 0, 0, 0, 0, 0] + Ascii("me"))
         + (([10, 0, 0, 0, 0, 0, 0, 0] + Ascii("shell_exec"))
         + (([2, 0, 0, 0, 0, 0, 0, 0] + Ascii("ls"))
         + (([2, 0, 0, 0, 0, 0, 0, 0] + Ascii("ok"))
         + ([1, 0, 0, 0, 0, 0, 0, 0] + Ascii("0")))))))
  {
    hide LittleEndian, EncodeField, Encode;
    var p := Payload(258, Ascii("now"), Ascii("me"), ShellExec, Ascii("ls"), Ascii("ok"), Ascii("0"));
    FieldOrder(p);
    SmallNumber(258);
    SmallField(p.timestamp);
    SmallField(p.agentId);
    SmallField(ActionName(ShellExec));
    SmallField(p.detail);
    SmallField(p.outcome);
    SmallField(p.prevHash);
  }
}
