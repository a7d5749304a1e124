/** The SFC shard cache of the Opera bridge: the address of the SFC constants
    shard, resolved through a locator call on the SFC contract and refreshed
    lazily once an expiry instant has passed, and the read of named protocol
    constants by their 4-byte selectors. */
module Sfc {
  import opened Go
  import opened Abi

  /** An instant, in nanoseconds since Go's zero `time.Time`. */
  type Time = nat

  /** The hard-coded lifetime of a resolved shard address: one hour. */
  const OneHour: nat := 3600 * 1_000_000_000

  /** A read-only contract call: sender, target contract and call payload. */
  datatype CallMsg = CallMsg(from: Address, to: Address, data: Bytes)

  /** The node's answer to a call at the instant it is made: the raw reply,
      or a transport error. */
  type Node = CallMsg -> Result<Bytes>

  /** Selector of `constsAddress()`, the locator of the constants shard. */
  const SigConstAddress: Bytes := [0xd4, 0x6f, 0xa5, 0x18]

  /** The named protocol constants, one per accessor. */
  datatype SfcConstant =
    | MinSelfStake
    | MaxDelegatedRatio
    | ValidatorCommission
    | BurntFeeShare
    | TreasuryFeeShare
    | UnlockedRewardRatio
    | MinLockupDuration
    | MaxLockupDuration
    | WithdrawalPeriodEpochs
    | WithdrawalPeriodTime
    | BaseRewardPerSecond
    | TargetGasPowerPerSecond

  /** The compiled-in selector table; each getter returns a uint256. */
  function Selector(c: SfcConstant): (sig: Bytes)
    ensures |sig| == 4
  {
    match c
    case MinSelfStake => [0xc5, 0xf5, 0x30, 0xaf]
    case MaxDelegatedRatio => [0x22, 0x65, 0xf2, 0x84]
    case ValidatorCommission => [0xa7, 0x78, 0x65, 0x15]
    case BurntFeeShare => [0xc7, 0x4d, 0xd6, 0x21]
    case TreasuryFeeShare => [0x94, 0xc3, 0xe9, 0x14]
    case UnlockedRewardRatio => [0x5e, 0x23, 0x08, 0xd2]
    case MinLockupDuration => [0x0d, 0x7b, 0x26, 0x09]
    case MaxLockupDuration => [0x0d, 0x49, 0x55, 0xe3]
    case WithdrawalPeriodEpochs => [0x65, 0x0a, 0xcd, 0x66]
    case WithdrawalPeriodTime => [0xb8, 0x2b, 0x84, 0x27]
    case BaseRewardPerSecond => [0xd9, 0xa7, 0xc1, 0xf9]
    case TargetGasPowerPerSecond => [0x3a, 0x3e, 0xf6, 0x6c]
  }

  /** No two named constants share a selector, and none is the locator's:
      every accessor reaches its own getter. */
  lemma SelectorsDistinct()
    ensures |SigConstAddress| == 4
    ensures forall c :: Selector(c) != SigConstAddress
    ensures forall c1, c2 :: Selector(c1) == Selector(c2) ==> c1 == c2
  {
  }

  /** What storing the locator's reply does to the cached address: a call
      error keeps it, a reply shorter than 12 bytes makes the slice
      `data[12:]` panic, any other reply is stored with SetBytes. */
  function AfterLoad(cur: Address, reply: Result<Bytes>): (r: Exit<Address>)
    ensures reply.Err? ==> r == Return(cur)
    ensures r.Panic? <==> reply.Ok? && |reply.value| < 12
    ensures reply.Ok? && |reply.value| >= 12 ==>
              && r.Return?
              && forall i :: 0 <= i < 20 ==>
                   r.value[i] == (if i + |reply.value| >= 32 then reply.value[i + |reply.value| - 20] else cur[i])
    ensures reply.Ok? && |reply.value| == 32 ==> r == Return(reply.value[12..])
  {
    match reply
    case Err(_) => Return(cur)
    case Ok(data) =>
      if |data| < 12 then Panic
      else
        var a := SetBytes(cur, data[12..]);
        assert |data| == 32 ==> a == data[12..] by {
          if |data| == 32 { SetBytesOfWordTail(cur, data); }
        }
        Return(a)
  }

  /** The cached address after a load: the stored one, or the old one when
      the load did not store. */
  function Stored(cur: Address, reply: Result<Bytes>): Address
  {
    match AfterLoad(cur, reply)
    case Return(a) => a
    case Panic => cur
  }

  /** The decoded value of a constant getter's reply: the call's error, or the
      whole reply read as a big-endian unsigned integer. */
  function DecodeUint(reply: Result<Bytes>): (r: Result<nat>)
    ensures reply.Err? ==> r == Err(reply.error)
    ensures reply.Ok? ==> r.Ok? && r.value < Pow256(|reply.value|)
    ensures reply.Ok? && reply.value == [] ==> r == Ok(0)
    ensures reply.Ok? ==> r.Ok? && BeBytes(r.value, |reply.value|) == reply.value
  {
    match reply
    case Err(e) => Err(e)
    case Ok(data) =>
      BeBytesOfBeUint(data);
      Ok(BeUint(data))
  }

  /** A 32-byte reply holding the encoding of `v` decodes to `v`; a reply
      carrying extra leading zero bytes decodes to the same value. */
  lemma DecodeUintWord(v: nat, k: nat)
    requires v < Pow256(32)
    ensures DecodeUint(Ok(BeBytes(v, 32))) == Ok(v)
    ensures DecodeUint(Ok(Zeros(k) + BeBytes(v, 32))) == Ok(v)
  {
    BeUintLeadingZeros(k, BeBytes(v, 32));
  }

  /** The shard cache bound to one SFC contract. */
  class SfcShards {
    /** The SFC contract; fixed at construction. */
    const sfc: Address
    /** The instant after which the cached address is stale. */
    var update: Time
    /** The cached address of the constants shard. */
    var constants: Address

    /** The locator call: `constsAddress()` sent to the SFC contract. */
    function LocatorCall(): (m: CallMsg)
      ensures m.to == sfc && m.data == SigConstAddress && m.from == ZeroAddress
    {
      CallMsg(ZeroAddress, sfc, SigConstAddress)
    }

    /** A zero-valued cache: zero expiry (always stale) and the zero address. */
    constructor (sfc: Address)
      ensures this.sfc == sfc
      ensures update == 0 && constants == ZeroAddress
    {
      this.sfc := sfc;
      update := 0;
      constants := ZeroAddress;
    }

    /** `loadConstantsAddress`: one locator call; the reply, if any, is
        stored as the shard address. */
    method LoadConstantsAddress(node: Node) returns (calls: seq<CallMsg>, panicked: bool)
      modifies this`constants
      ensures calls == [LocatorCall()]
      ensures panicked <==> AfterLoad(old(constants), node(LocatorCall())).Panic?
      ensures constants == Stored(old(constants), node(LocatorCall()))
    {
      calls := [LocatorCall()];
      var reply := node(LocatorCall());
      panicked := false;
      match reply {
        case Err(_) =>
          return;
        case Ok(data) =>
          if |data| < 12 {
            panicked := true;
            return;
          }
          constants := SetBytes(constants, data[12..]);
      }
    }

    /** `assertShards`: nothing happens while the expiry is strictly after
        `now`; otherwise the expiry moves to `stamp` plus one hour (the second
        clock reading) before the load is attempted, so it moves even when
        the load fails. */
    method AssertShards(now: Time, stamp: Time, node: Node) returns (calls: seq<CallMsg>, panicked: bool)
      modifies this`update, this`constants
      ensures old(update) > now ==>
                calls == [] && !panicked && update == old(update) && constants == old(constants)
      ensures old(update) <= now ==>
                && update == stamp + OneHour
                && calls == [LocatorCall()]
                && (panicked <==> AfterLoad(old(constants), node(LocatorCall())).Panic?)
                && constants == Stored(old(constants), node(LocatorCall()))
    {
      if update > now {
        return [], false;
      }
      update := stamp + OneHour;
      calls, panicked := LoadConstantsAddress(node);
    }

    /** `sfcConstants`: the cached shard address as it stands after
        `assertShards`, which the lock makes atomic. */
    method SfcConstants(now: Time, stamp: Time, node: Node) returns (r: Exit<Address>, calls: seq<CallMsg>)
      modifies this`update, this`constants
      ensures old(update) > now ==>
                r == Return(constants) && calls == [] &&
                update == old(update) && constants == old(constants)
      ensures old(update) <= now ==>
                && update == stamp + OneHour
                && calls == [LocatorCall()]
                && r == AfterLoad(old(constants), node(LocatorCall()))
                && constants == Stored(old(constants), node(LocatorCall()))
    {
      var panicked;
      calls, panicked := AssertShards(now, stamp, node);
      if panicked {
        return Panic, calls;
      }
      r := Return(constants);
    }

    /** `constantBySignature`: the selector alone is the payload, sent to the
        SFC contract (not to the cached constants shard, which this function
        cannot read); the reply is decoded whole as an unsigned integer. */
    function ConstantBySignature(node: Node, sig: Bytes): (r: Traced<Result<nat>, CallMsg>)
      ensures r.calls == [CallMsg(ZeroAddress, sfc, sig)]
      ensures r.out == DecodeUint(node(CallMsg(ZeroAddress, sfc, sig)))
    {
      Traced(DecodeUint(node(CallMsg(ZeroAddress, sfc, sig))), [CallMsg(ZeroAddress, sfc, sig)])
    }

    /** The twelve named accessors (`minSelfStake` ... `targetGasPowerPerSecond`):
        each sends its own 4-byte selector to the SFC contract and returns the
        decoded reply or the call's error. */
    function ConstantValue(node: Node, c: SfcConstant): (r: Traced<Result<nat>, CallMsg>)
      ensures |r.calls| == 1 && r.calls[0].from == ZeroAddress
      ensures r.calls[0].to == sfc && r.calls[0].data == Selector(c)
      ensures |r.calls[0].data| == 4 && r.calls[0].data != SigConstAddress
      ensures r.out == DecodeUint(node(r.calls[0]))
    {
      SelectorsDistinct();
      ConstantBySignature(node, Selector(c))
    }
  }

  /** A constant whose getter answers with the 32-byte word of `v` reads as
      exactly `v`. */
  lemma ConstantWordRoundTrip(s: SfcShards, node: Node, c: SfcConstant, v: nat)
    requires v < Pow256(32)
    requires node(CallMsg(ZeroAddress, s.sfc, Selector(c))) == Ok(BeBytes(v, 32))
    ensures s.ConstantValue(node, c).out == Ok(v)
  {
  }

  /** The expiry window: after a refresh at `stamp`, a request at any `later`
      instant before `stamp` plus one hour issues no call and returns the
      address the refresh left. */
  method RefreshThenHit(s: SfcShards, now: Time, stamp: Time, later: Time, node: Node, node2: Node)
    returns (first: seq<CallMsg>, second: seq<CallMsg>, r: Exit<Address>)
    requires s.update <= now && later < stamp + OneHour
    modifies s
    ensures first == [s.LocatorCall()] && second == []
    ensures r == Return(Stored(old(s.constants), node(s.LocatorCall())))
    ensures s.update == stamp + OneHour
  {
    var panicked;
    first, panicked := s.AssertShards(now, stamp, node);
    r, second := s.SfcConstants(later, later, node2);
  }

  /** Stale fallback: once a 32-byte locator reply has been stored, a later
      refresh whose call fails leaves that address in place and returns it. */
  method StaleFallback(s: SfcShards, t0: Time, t1: Time, node: Node, failing: Node, e: Error)
    returns (r: Exit<Address>)
    requires s.update <= t0 && t0 + OneHour <= t1
    requires node(s.LocatorCall()).Ok? && |node(s.LocatorCall()).value| == 32
    requires failing(s.LocatorCall()) == Err(e)
    modifies s
    ensures r == Return(node(s.LocatorCall()).value[12..])
    ensures s.update == t1 + OneHour
  {
    var calls, panicked := s.AssertShards(t0, t0, node);
    r, calls := s.SfcConstants(t1, t1, failing);
  }
}
