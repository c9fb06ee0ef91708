/** Turning a node's JSON-RPC `result` object into a ledger snapshot:
    `parse_ledger` (check_today.py) for the `ledger` method and the parsing
    half of `get_server_info` (generate_data.py) for `server_info`. The
    argument is what the RPC gateway returns: the `result` dict, or `None`
    when every node failed. */
module LedgerParse {
  import opened Py

  /** Seconds from the Unix epoch to the ledger's epoch (2000-01-01 UTC). */
  const RippleEpoch: int := 946684800

  const DropsPerXrp: int := 1000000

  /** A normalised snapshot: sequence number, total supply in XRP when the
      ledger reported one, close time in Unix seconds when it reported one. */
  datatype Snapshot = Snapshot(sequence: int, coins: Option<real>, time: Option<int>)

  function XrpOfDrops(drops: int): real
  {
    drops as real / DropsPerXrp as real
  }

  /** `x + RIPPLE_EPOCH` for a close time: ints and bools add, anything else
      raises TypeError. */
  function IntOperand(v: Value): Outcome<int>
  {
    match v
    case Int(i) => Returned(i)
    case Bool(b) => Returned(if b then 1 else 0)
    case _ => Raised
  }

  /** `res.get("ledger") or res.get("closed", {}).get("ledger", {})`: the
      ledger object in either of the two response shapes. */
  function LedgerObject(res: map<string, Value>): Outcome<Value>
  {
    var direct := Get(res, "ledger", Null);
    if Truthy(direct) then Returned(direct)
    else GetFrom(Get(res, "closed", Dict(map[])), "ledger", Dict(map[]))
  }

  /** The sequence number: the ledger's `ledger_index`, else its `seqNum`,
      else the response's own `ledger_index`, else 0, each taken only when
      truthy, and then converted with `int()`. */
  function SequenceOf(res: map<string, Value>, ld: map<string, Value>): Outcome<int>
  {
    IntOf(Or(Or(Get(ld, "ledger_index", Null), Get(ld, "seqNum", Null)),
             Get(res, "ledger_index", Int(0))))
  }

  /** `int(ld["total_coins"]) / 1e6 if ld.get("total_coins") else None` */
  function CoinsOf(ld: map<string, Value>): Outcome<Option<real>>
  {
    if Truthy(Get(ld, "total_coins", Null)) then
      var drops :- IntOf(ld["total_coins"]);
      Returned(Some(XrpOfDrops(drops)))
    else Returned(None)
  }

  /** `ld["close_time"] + RIPPLE_EPOCH if ld.get("close_time") is not None else None` */
  function CloseTimeOf(ld: map<string, Value>): Outcome<Option<int>>
  {
    if Get(ld, "close_time", Null) != Null then
      var t :- IntOperand(ld["close_time"]);
      Returned(Some(t + RippleEpoch))
    else Returned(None)
  }

  /** `parse_ledger(res)` */
  function ParseLedger(res: Option<map<string, Value>>): (r: Outcome<Option<Snapshot>>)
    ensures res.None? || res.value == map[] ==> r == Returned(None)
    ensures r == Returned(None) ==>
      res.None? || res.value == map[] || LedgerObject(res.value) == Returned(Null) ||
      (LedgerObject(res.value).Returned? && !Truthy(LedgerObject(res.value).value))
  {
    if res.None? || res.value == map[] then Returned(None)
    else
      var ld :- LedgerObject(res.value);
      if !Truthy(ld) then Returned(None)
      else if !ld.Dict? then Raised
      else
        var sequence :- SequenceOf(res.value, ld.fields);
        var coins :- CoinsOf(ld.fields);
        var time :- CloseTimeOf(ld.fields);
        Returned(Some(Snapshot(sequence, coins, time)))
  }

  /** A response that carries neither a truthy `ledger` nor a `closed`
      object holding a truthy `ledger` parses to `None`. */
  lemma NoLedgerObject(res: map<string, Value>)
    requires !Truthy(Get(res, "ledger", Null))
    requires "closed" !in res ||
             (res["closed"].Dict? && !Truthy(Get(res["closed"].fields, "ledger", Null)))
    ensures ParseLedger(Some(res)) == Returned(None)
  {
  }

  /** Both response shapes give the same snapshot: a ledger object `ld`
      directly under `ledger` parses exactly as the same object under
      `closed.ledger`. */
  lemma TwoShapesAgree(ld: Value, rest: map<string, Value>)
    requires Truthy(ld)
    requires "ledger" !in rest && "closed" !in rest
    ensures ParseLedger(Some(rest["ledger" := ld]))
         == ParseLedger(Some(rest["closed" := Dict(map["ledger" := ld])]))
  {
    var a, b := rest["ledger" := ld], rest["closed" := Dict(map["ledger" := ld])];
    assert "ledger" in a && "closed" in b;
    assert LedgerObject(a) == LedgerObject(b) == Returned(ld);
    assert Get(a, "ledger_index", Int(0)) == Get(b, "ledger_index", Int(0));
  }

  /** `ledger` takes priority: when it is truthy, whatever `closed` holds
      does not matter (even a value whose `.get` would raise). */
  lemma DirectShapeFirst(res: map<string, Value>, closed: Value)
    requires Truthy(Get(res, "ledger", Null))
    ensures ParseLedger(Some(res["closed" := closed])) == ParseLedger(Some(res))
  {
    var res' := res["closed" := closed];
    assert res != map[] && res' != map[];
    assert Get(res', "ledger", Null) == Get(res, "ledger", Null);
    assert Get(res', "ledger_index", Int(0)) == Get(res, "ledger_index", Int(0));
  }

  /** Where the sequence number comes from, in priority order: the first
      of the ledger's `ledger_index`, its `seqNum` and the response's
      `ledger_index` that is truthy, so a field that is absent, `null`, `""`
      or `0` is skipped. The last one is converted even when falsy, so it
      gives 0 only when absent (`int(None)` raises). Then, as rippled
      writes them: a
      decimal string or an integer in the ledger object, an integer at the
      top level. */
  lemma SequencePriority(res: map<string, Value>, ld: map<string, Value>, n: int)
    ensures Truthy(Get(ld, "ledger_index", Null)) ==>
      SequenceOf(res, ld) == IntOf(ld["ledger_index"])
    ensures !Truthy(Get(ld, "ledger_index", Null)) && Truthy(Get(ld, "seqNum", Null)) ==>
      SequenceOf(res, ld) == IntOf(ld["seqNum"])
    ensures !Truthy(Get(ld, "ledger_index", Null)) && !Truthy(Get(ld, "seqNum", Null)) ==>
      SequenceOf(res, ld) == IntOf(Get(res, "ledger_index", Int(0)))
    ensures Get(ld, "ledger_index", Null) == Str(Decimal(n)) ==>
      SequenceOf(res, ld) == Returned(n)
    ensures Get(ld, "ledger_index", Null) == Int(n) && n != 0 ==>
      SequenceOf(res, ld) == Returned(n)
    ensures !Truthy(Get(ld, "ledger_index", Null)) && Get(ld, "seqNum", Null) == Str(Decimal(n)) ==>
      SequenceOf(res, ld) == Returned(n)
    ensures !Truthy(Get(ld, "ledger_index", Null)) && !Truthy(Get(ld, "seqNum", Null)) &&
            Get(res, "ledger_index", Null) == Int(n) ==>
      SequenceOf(res, ld) == Returned(n)
    ensures !Truthy(Get(ld, "ledger_index", Null)) && !Truthy(Get(ld, "seqNum", Null)) &&
            "ledger_index" !in res ==>
      SequenceOf(res, ld) == Returned(0)
  {
    ParseDecimal(n);
    assert Decimal(n) != "";
  }

  /** The supply is converted from drops to XRP, and is `None` exactly when
      `total_coins` is absent or falsy. */
  lemma CoinsInXrp(ld: map<string, Value>, drops: int)
    ensures Get(ld, "total_coins", Null) == Str(Decimal(drops)) ==>
      CoinsOf(ld) == Returned(Some(drops as real / 1000000.0))
    ensures !Truthy(Get(ld, "total_coins", Null)) <==> CoinsOf(ld) == Returned(None)
  {
    if Get(ld, "total_coins", Null) == Str(Decimal(drops)) {
      IntOfDecimal(drops);
      assert Decimal(drops) != "";
    }
    if Truthy(Get(ld, "total_coins", Null)) {
      assert CoinsOf(ld) != Returned(None) by {
        if IntOf(ld["total_coins"]).Returned? {
          assert CoinsOf(ld).Returned? && CoinsOf(ld).value.Some?;
        }
      }
    }
  }

  /** The close time is shifted from the ledger's epoch to the Unix epoch,
      and is `None` exactly when `close_time` is absent or null. */
  lemma CloseTimeShifted(ld: map<string, Value>, t: int)
    ensures Get(ld, "close_time", Null) == Int(t) ==>
      CloseTimeOf(ld) == Returned(Some(t + 946684800))
    ensures Get(ld, "close_time", Null) == Null <==> CloseTimeOf(ld) == Returned(None)
  {
  }

  // ---------------------------------------------------------------------
  // server_info (generate_data.py)
  // ---------------------------------------------------------------------

  /** What `get_server_info` returns, without its float `tx_per_ledger`,
      which no result depends on. */
  datatype ServerInfo = ServerInfo(totalCoinsXrp: real, ledgerIndex: int)

  /** The parsing half of `get_server_info`: `info.validated_ledger` holds
      the supply in drops under `total_coins` and the sequence under `seq`. */
  function GetServerInfo(result: Option<map<string, Value>>): (r: Outcome<Option<ServerInfo>>)
    ensures result.None? || result.value == map[] ==> r == Returned(None)
  {
    if result.None? || result.value == map[] then Returned(None)
    else
      var info := Get(result.value, "info", Dict(map[]));
      var vl :- GetFrom(info, "validated_ledger", Dict(map[]));
      var rawCoins :- GetFrom(vl, "total_coins", Null);
      if !Truthy(rawCoins) then Returned(None)
      else
        var drops :- IntOf(rawCoins);
        var seqValue :- GetFrom(vl, "seq", Int(0));
        var ledgerIndex :- IntOf(seqValue);
        var txPerLedger :- GetFrom(vl, "tx_per_ledger", Int(0));
        // `float(vl.get("tx_per_ledger", 0))`: the value is unused
        if !FloatAccepts(txPerLedger) then Raised
        else Returned(Some(ServerInfo(XrpOfDrops(drops), ledgerIndex)))
  }

  /** A validated ledger without a truthy `total_coins` gives `None`; one
      with the supply written in drops gives that supply in XRP, the
      ledger index defaulting to 0 when `seq` is absent, unless
      `tx_per_ledger` is `null`, a list or a dict, whose `float()` raises. */
  lemma ServerInfoReads(result: map<string, Value>, vl: map<string, Value>, drops: int, index: int)
    requires result != map[]
    requires Get(result, "info", Dict(map[])).Dict?
    requires Get(Get(result, "info", Dict(map[])).fields, "validated_ledger", Dict(map[])) == Dict(vl)
    ensures !Truthy(Get(vl, "total_coins", Null)) ==> GetServerInfo(Some(result)) == Returned(None)
    ensures Get(vl, "total_coins", Null) == Str(Decimal(drops)) && "seq" !in vl &&
            FloatAccepts(Get(vl, "tx_per_ledger", Int(0))) ==>
      GetServerInfo(Some(result)) == Returned(Some(ServerInfo(drops as real / 1000000.0, 0)))
    ensures Get(vl, "total_coins", Null) == Str(Decimal(drops)) && Get(vl, "seq", Null) == Int(index) &&
            FloatAccepts(Get(vl, "tx_per_ledger", Int(0))) ==>
      GetServerInfo(Some(result)) == Returned(Some(ServerInfo(drops as real / 1000000.0, index)))
    ensures Get(vl, "total_coins", Null) == Str(Decimal(drops)) && Get(vl, "seq", Null) == Int(index) &&
            !FloatAccepts(Get(vl, "tx_per_ledger", Int(0))) ==>
      GetServerInfo(Some(result)) == Raised
  {
    IntOfDecimal(drops);
    assert Decimal(drops) != "";
  }
}
