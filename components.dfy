/** The two ECS components the mod persists in save games, and their binary layout
    as a sequence of typed writer calls. */
module Components {
  import opened Wrappers
  import opened Ids
  import opened Text

  /** Usable bytes of a FixedString64Bytes (64 bytes less the length prefix and terminator). */
  const FixedString64Capacity: nat := 61

  /** Unity's FixedString64Bytes: a string whose UTF-8 form fits the fixed buffer. */
  type FixedString64 = s: string | Utf8Length(s) <= FixedString64Capacity witness ""

  /** The conversion from string to FixedString64Bytes; it fails on a string that does not fit. */
  function ToFixedString64(s: string): (r: Option<FixedString64>)
    ensures r.Some? <==> Utf8Length(s) <= FixedString64Capacity
    ensures r.Some? ==> r.value == s
  {
    if Utf8Length(s) <= FixedString64Capacity then Some(s) else None
  }

  /** Version written by the current code for both components. */
  const CurrentVersion: int := 1

  /** Components.CustomRule: one stored rule. The id is private and only readable. */
  datatype CustomRule = CustomRule(
    version: int,
    ruleId: Hash128,
    ruleName: FixedString64,
    occupancy: int,
    stdTicket: int,
    maxTicketInc: int,
    maxTicketDec: int,
    maxVehAdj: int,
    minVehAdj: int)

  /** The constructor: copies the seven arguments, takes the fresh id produced by
      Guid.NewGuid (randomness, so a parameter here) and keeps version 1. */
  function NewCustomRule(freshId: Hash128, ruleName: FixedString64, occupancy: int, stdTicket: int,
                         maxTicketInc: int, maxTicketDec: int, maxVehAdj: int, minVehAdj: int): (r: CustomRule)
    ensures r.version == CurrentVersion && r.ruleId == freshId
    ensures r.ruleName == ruleName && r.occupancy == occupancy && r.stdTicket == stdTicket
    ensures r.maxTicketInc == maxTicketInc && r.maxTicketDec == maxTicketDec
    ensures r.maxVehAdj == maxVehAdj && r.minVehAdj == minVehAdj
  {
    CustomRule(CurrentVersion, freshId, ruleName, occupancy, stdTicket, maxTicketInc, maxTicketDec, maxVehAdj, minVehAdj)
  }

  /** Components.RouteRule: binds a route to a rule key. */
  datatype RouteRule = RouteRule(version: int, customRule: int)

  /** The key value `default(int)`, which the controller reads as "disabled". */
  const DisabledKey: int := 0

  /** The constructor: stores the given key, version 1. */
  function NewRouteRule(customRule: int): (r: RouteRule)
    ensures r.version == CurrentVersion && r.customRule == customRule
  {
    RouteRule(CurrentVersion, customRule)
  }

  /** One call on the game's binary writer, with the value it writes. */
  datatype Token = IntToken(i: int) | HashToken(h: Hash128) | StringToken(s: string)

  /** The game's IWriter: everything written so far, in order. */
  class Writer {
    var written: seq<Token>

    constructor ()
      ensures written == []
    {
      written := [];
    }

    method WriteInt(i: int)
      modifies this
      ensures written == old(written) + [IntToken(i)]
    {
      written := written + [IntToken(i)];
    }

    method WriteHash(h: Hash128)
      modifies this
      ensures written == old(written) + [HashToken(h)]
    {
      written := written + [HashToken(h)];
    }

    method WriteString(s: string)
      modifies this
      ensures written == old(written) + [StringToken(s)]
    {
      written := written + [StringToken(s)];
    }
  }

  /** The game's IReader over a save stream; a read of the wrong kind of value fails. */
  class Reader {
    const data: seq<Token>
    var pos: nat

    constructor (data: seq<Token>)
      ensures this.data == data && pos == 0
    {
      this.data := data;
      pos := 0;
    }

    method ReadInt() returns (r: Option<int>)
      modifies this
      ensures r == IntAt(data, old(pos))
      ensures pos == if r.Some? then old(pos) + 1 else old(pos)
    {
      r := IntAt(data, pos);
      if r.Some? {
        pos := pos + 1;
      }
    }

    method ReadHash() returns (r: Option<Hash128>)
      modifies this
      ensures r == HashAt(data, old(pos))
      ensures pos == if r.Some? then old(pos) + 1 else old(pos)
    {
      r := HashAt(data, pos);
      if r.Some? {
        pos := pos + 1;
      }
    }

    method ReadString() returns (r: Option<string>)
      modifies this
      ensures r == StringAt(data, old(pos))
      ensures pos == if r.Some? then old(pos) + 1 else old(pos)
    {
      r := StringAt(data, pos);
      if r.Some? {
        pos := pos + 1;
      }
    }
  }

  function IntAt(ts: seq<Token>, k: nat): (r: Option<int>)
    ensures r.Some? <==> k < |ts| && ts[k].IntToken?
    ensures r.Some? ==> ts[k] == IntToken(r.value)
  {
    if k < |ts| && ts[k].IntToken? then Some(ts[k].i) else None
  }

  function HashAt(ts: seq<Token>, k: nat): (r: Option<Hash128>)
    ensures r.Some? <==> k < |ts| && ts[k].HashToken?
    ensures r.Some? ==> ts[k] == HashToken(r.value)
  {
    if k < |ts| && ts[k].HashToken? then Some(ts[k].h) else None
  }

  function StringAt(ts: seq<Token>, k: nat): (r: Option<string>)
    ensures r.Some? <==> k < |ts| && ts[k].StringToken?
    ensures r.Some? ==> ts[k] == StringToken(r.value)
  {
    if k < |ts| && ts[k].StringToken? then Some(ts[k].s) else None
  }

  /** The record layout of a CustomRule: version, id, name, then the six integers. */
  function EncodeCustomRule(r: CustomRule): (ts: seq<Token>)
    ensures |ts| == 9
  {
    [IntToken(r.version), HashToken(r.ruleId), StringToken(r.ruleName),
     IntToken(r.occupancy), IntToken(r.stdTicket), IntToken(r.maxTicketInc),
     IntToken(r.maxTicketDec), IntToken(r.maxVehAdj), IntToken(r.minVehAdj)]
  }

  /** Reading a CustomRule record at position `k`: fails on a value of the wrong kind,
      a missing value or a name that does not fit the fixed string. */
  function DecodeCustomRule(ts: seq<Token>, k: nat): (r: Option<CustomRule>)
    ensures r.Some? ==> k + 9 <= |ts| && ts[k..k + 9] == EncodeCustomRule(r.value)
  {
    if k + 9 <= |ts| && ts[k].IntToken? && ts[k + 1].HashToken? && ts[k + 2].StringToken?
       && ToFixedString64(ts[k + 2].s).Some?
       && ts[k + 3].IntToken? && ts[k + 4].IntToken? && ts[k + 5].IntToken?
       && ts[k + 6].IntToken? && ts[k + 7].IntToken? && ts[k + 8].IntToken?
    then
      Some(CustomRule(ts[k].i, ts[k + 1].h, ToFixedString64(ts[k + 2].s).value, ts[k + 3].i,
                      ts[k + 4].i, ts[k + 5].i, ts[k + 6].i, ts[k + 7].i, ts[k + 8].i))
    else None
  }

  /** CustomRule.Serialize: nine writer calls in the layout order. */
  method SerializeCustomRule(r: CustomRule, writer: Writer)
    modifies writer
    ensures writer.written == old(writer.written) + EncodeCustomRule(r)
  {
    writer.WriteInt(r.version);
    writer.WriteHash(r.ruleId);
    writer.WriteString(r.ruleName);
    writer.WriteInt(r.occupancy);
    writer.WriteInt(r.stdTicket);
    writer.WriteInt(r.maxTicketInc);
    writer.WriteInt(r.maxTicketDec);
    writer.WriteInt(r.maxVehAdj);
    writer.WriteInt(r.minVehAdj);
  }

  /** CustomRule.Deserialize: reads the fields back in the same order. `None` stands
      for the exception a failed read or an oversized name raises. */
  method DeserializeCustomRule(reader: Reader) returns (r: Option<CustomRule>)
    modifies reader
    ensures r == DecodeCustomRule(reader.data, old(reader.pos))
    ensures r.Some? ==> reader.pos == old(reader.pos) + 9
  {
    var version := reader.ReadInt();
    if version.None? { return None; }
    var id := reader.ReadHash();
    if id.None? { return None; }
    var nameText := reader.ReadString();
    if nameText.None? { return None; }
    var name := ToFixedString64(nameText.value);
    if name.None? { return None; }
    var occupancy := reader.ReadInt();
    if occupancy.None? { return None; }
    var stdTicket := reader.ReadInt();
    if stdTicket.None? { return None; }
    var maxTicketInc := reader.ReadInt();
    if maxTicketInc.None? { return None; }
    var maxTicketDec := reader.ReadInt();
    if maxTicketDec.None? { return None; }
    var maxVehAdj := reader.ReadInt();
    if maxVehAdj.None? { return None; }
    var minVehAdj := reader.ReadInt();
    if minVehAdj.None? { return None; }
    r := Some(CustomRule(version.value, id.value, name.value, occupancy.value, stdTicket.value,
                         maxTicketInc.value, maxTicketDec.value, maxVehAdj.value, minVehAdj.value));
  }

  /** Reading back what Serialize wrote restores every field, whatever follows it. */
  lemma CustomRuleRoundTrip(r: CustomRule, before: seq<Token>, after: seq<Token>)
    ensures DecodeCustomRule(before + EncodeCustomRule(r) + after, |before|) == Some(r)
  {
    var ts := before + EncodeCustomRule(r) + after;
    var k := |before|;
    assert ts[k..k + 9] == EncodeCustomRule(r);
    assert ToFixedString64(r.ruleName) == Some(r.ruleName);
  }

  /** A stored name that does not fit the fixed string cannot be read back. */
  lemma OversizedNameRefused(ts: seq<Token>, k: nat)
    requires k + 2 < |ts| && ts[k + 2].StringToken?
    requires Utf8Length(ts[k + 2].s) > FixedString64Capacity
    ensures DecodeCustomRule(ts, k) == None
  {
  }

  /** The record layout of a RouteRule: version, then the rule key. */
  function EncodeRouteRule(r: RouteRule): (ts: seq<Token>)
    ensures |ts| == 2
  {
    [IntToken(r.version), IntToken(r.customRule)]
  }

  function DecodeRouteRule(ts: seq<Token>, k: nat): (r: Option<RouteRule>)
    ensures r.Some? ==> k + 2 <= |ts| && ts[k..k + 2] == EncodeRouteRule(r.value)
  {
    if k + 2 <= |ts| && ts[k].IntToken? && ts[k + 1].IntToken?
    then Some(RouteRule(ts[k].i, ts[k + 1].i))
    else None
  }

  /** RouteRule.Serialize: version, then the key. */
  method SerializeRouteRule(r: RouteRule, writer: Writer)
    modifies writer
    ensures writer.written == old(writer.written) + EncodeRouteRule(r)
  {
    writer.WriteInt(r.version);
    writer.WriteInt(r.customRule);
  }

  /** RouteRule.Deserialize: the same two fields in the same order. */
  method DeserializeRouteRule(reader: Reader) returns (r: Option<RouteRule>)
    modifies reader
    ensures r == DecodeRouteRule(reader.data, old(reader.pos))
    ensures r.Some? ==> reader.pos == old(reader.pos) + 2
  {
    var version := reader.ReadInt();
    if version.None? { return None; }
    var customRule := reader.ReadInt();
    if customRule.None? { return None; }
    r := Some(RouteRule(version.value, customRule.value));
  }

  lemma RouteRuleRoundTrip(r: RouteRule, before: seq<Token>, after: seq<Token>)
    ensures DecodeRouteRule(before + EncodeRouteRule(r) + after, |before|) == Some(r)
  {
    var ts := before + EncodeRouteRule(r) + after;
    assert ts[|before|..|before| + 2] == EncodeRouteRule(r);
  }
}
