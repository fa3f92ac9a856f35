/** Sending with a fixed fee: the node funds a raw transaction with a fee of its own
    choice, the recipient's output is corrected, and the outputs are encoded again as
    a map from address to value.  Amounts are in satoshis. */
module FixedFee {
  import opened Types

  datatype Output = Output(addresses: seq<string>, value: int)

  function TotalOut(outs: seq<Output>): int {
    if outs == [] then 0 else TotalOut(outs[..|outs| - 1]) + outs[|outs| - 1].value
  }

  // --------------------------------------------------- totals of address maps

  ghost function MapTotal(m: map<string, int>): int {
    if m == map[] then 0
    else
      var k :| k in m;
      m[k] + MapTotal(m - {k})
  }

  lemma {:induction false} MapTotalRemove(m: map<string, int>, k: string)
    requires k in m
    ensures MapTotal(m) == m[k] + MapTotal(m - {k})
    decreases |m|
  {
    var c :| c in m && MapTotal(m) == m[c] + MapTotal(m - {c});
    if c != k {
      MapTotalRemove(m - {c}, k);
      MapTotalRemove(m - {k}, c);
      assert m - {c} - {k} == m - {k} - {c};
    }
  }

  lemma MapTotalUpdate(m: map<string, int>, k: string, v: int)
    ensures MapTotal(m[k := v]) == MapTotal(m) + v - if k in m then m[k] else 0
  {
    MapTotalRemove(m[k := v], k);
    assert m[k := v] - {k} == m - {k};
    if k in m {
      MapTotalRemove(m, k);
    } else {
      assert m - {k} == m;
    }
  }

  // ----------------------------------------------------------------- encoding

  predicate SingleAddresses(outs: seq<Output>) {
    forall i :: 0 <= i < |outs| ==> |outs[i].addresses| == 1
  }

  ghost predicate DistinctAddresses(outs: seq<Output>)
    requires SingleAddresses(outs)
  {
    forall i, j :: 0 <= i < j < |outs| ==> outs[i].addresses[0] != outs[j].addresses[0]
  }

  /** The address map of a list of outputs; a later output replaces an earlier one. */
  function Encoded(outs: seq<Output>): (m: map<string, int>)
    requires SingleAddresses(outs)
    ensures forall a :: a in m <==> exists i :: 0 <= i < |outs| && outs[i].addresses[0] == a
  {
    if outs == [] then map[]
    else
      var n := |outs| - 1;
      var m := Encoded(outs[..n]);
      assert forall i :: 0 <= i < n ==> outs[..n][i] == outs[i];
      m[outs[n].addresses[0] := outs[n].value]
  }

  lemma EncodedStep(outs: seq<Output>)
    requires SingleAddresses(outs) && DistinctAddresses(outs) && outs != []
    ensures var n := |outs| - 1;
            && SingleAddresses(outs[..n]) && DistinctAddresses(outs[..n])
            && outs[n].addresses[0] !in Encoded(outs[..n])
            && Encoded(outs) == Encoded(outs[..n])[outs[n].addresses[0] := outs[n].value]
  {
  }

  /** Nothing is lost in the map when the addresses are distinct. */
  lemma {:induction false} EncodedTotal(outs: seq<Output>)
    requires SingleAddresses(outs) && DistinctAddresses(outs)
    ensures MapTotal(Encoded(outs)) == TotalOut(outs)
  {
    if outs != [] {
      var n := |outs| - 1;
      EncodedStep(outs);
      EncodedTotal(outs[..n]);
      MapTotalUpdate(Encoded(outs[..n]), outs[n].addresses[0], outs[n].value);
      hide Encoded, MapTotal, DistinctAddresses;
    }
  }

  lemma {:induction false} EncodedAt(outs: seq<Output>, i: nat)
    requires SingleAddresses(outs) && DistinctAddresses(outs) && i < |outs|
    ensures outs[i].addresses[0] in Encoded(outs) && Encoded(outs)[outs[i].addresses[0]] == outs[i].value
  {
    hide Encoded;
    var n := |outs| - 1;
    EncodedStep(outs);
    if i < n {
      EncodedAt(outs[..n], i);
    }
  }

  method EncodeTransformedTransaction(outs: array<Output>) returns (r: Option<map<string, int>>)
    ensures r.Some? <==> SingleAddresses(outs[..])
    ensures r.Some? ==> r.value == Encoded(outs[..])
  {
    var finalOutputs := map[];
    var i := 0;
    while i < outs.Length
      invariant 0 <= i <= outs.Length
      invariant SingleAddresses(outs[..i]) && finalOutputs == Encoded(outs[..i])
    {
      if |outs[i].addresses| != 1 {
        assert outs[..][i] == outs[i];
        return None;
      }
      assert outs[..i + 1][..i] == outs[..i];
      finalOutputs := finalOutputs[outs[i].addresses[0] := outs[i].value];
      i := i + 1;
    }
    assert outs[..i] == outs[..];
    return Some(finalOutputs);
  }

  // ------------------------------------------------------------ the fixed fee

  /** The answer to fundrawtransaction: a change position, or -1 without change, and the
      fee the node took off the recipient's output. */
  datatype Funded = Funded(inputs: int, outs: seq<Output>, changePos: int, autoFee: int)

  function RecipientPos(changePos: int): int {
    if changePos == 0 then 1 else 0
  }

  function ExpectedOutputs(changePos: int): int {
    if changePos == -1 then 1 else 2
  }

  /** The node covers the outputs and its fee, and has subtracted that fee from the one
      output it was asked to fund, which is the one that is not the change. */
  predicate FundedFor(f: Funded, address: string, amount: int) {
    && f.inputs == TotalOut(f.outs) + f.autoFee
    && (f.changePos == -1 || 0 <= f.changePos <= 1)
    && |f.outs| == ExpectedOutputs(f.changePos)
    && f.outs[RecipientPos(f.changePos)] == Output([address], amount - f.autoFee)
  }

  function Corrected(outs: seq<Output>, pos: int, fixedFee: int, autoFee: int): seq<Output>
    requires 0 <= pos < |outs|
  {
    outs[pos := Output(outs[pos].addresses, outs[pos].value - fixedFee + autoFee)]
  }

  /** The checks of transformTxToSetFixedFee, and the rewritten output value. */
  predicate Transformable(outs: seq<Output>, changePos: int, address: string) {
    && |outs| == ExpectedOutputs(changePos)
    && outs[RecipientPos(changePos)].addresses == [address]
  }

  method TransformTxToSetFixedFee(outs: array<Output>, changePos: int, autoFee: int, address: string, fixedFee: nat)
    returns (ok: bool)
    modifies outs
    ensures ok <==> Transformable(old(outs[..]), changePos, address)
    ensures ok ==> outs[..] == Corrected(old(outs[..]), RecipientPos(changePos), fixedFee, autoFee)
    ensures !ok ==> outs[..] == old(outs[..])
  {
    var recipientPos, expectedOutputNumber;
    if changePos != -1 {
      recipientPos, expectedOutputNumber := 1, 2;
      if changePos != 0 {
        recipientPos := 0;
      }
    } else {
      recipientPos, expectedOutputNumber := 0, 1;
    }
    if outs.Length != expectedOutputNumber {
      return false;
    }
    var out := outs[recipientPos];
    if |out.addresses| != 1 {
      return false;
    }
    if out.addresses[0] != address {
      return false;
    }
    assert out.addresses == [address];
    outs[recipientPos] := out.(value := out.value - fixedFee + autoFee);
    return true;
  }

  lemma CorrectedTotal(outs: seq<Output>, pos: int, fixedFee: int, autoFee: int)
    requires 0 <= pos < |outs| <= 2
    ensures TotalOut(Corrected(outs, pos, fixedFee, autoFee)) == TotalOut(outs) - fixedFee + autoFee
  {
    var outs' := Corrected(outs, pos, fixedFee, autoFee);
    if |outs| == 1 {
      assert outs == [outs[0]] && outs' == [outs'[0]];
      assert outs[..0] == [] && outs'[..0] == [];
    } else {
      assert outs[..1] == [outs[0]] && outs'[..1] == [outs'[0]];
      assert outs[..1][..0] == [] && outs'[..1][..0] == [];
    }
  }

  /** The amount the node is asked to fund. */
  function Requested(amount: nat, fee: nat, recipientPays: bool): nat {
    if recipientPays then amount else amount + fee
  }

  /** The change output the node added, if any, pays to one address. */
  predicate ChangeOk(f: Funded) {
    SingleAddresses(f.outs)
  }

  /** SendWithFixedFee up to signing, for whatever the node answered.  For a funded
      transaction with distinct output addresses the result pays exactly the requested
      fee, and the recipient gets the amount, reduced by the fee when the recipient pays. */
  method SendWithFixedFee(address: string, amount: nat, fee: nat, recipientPays: bool, funded: Funded)
    returns (r: Option<map<string, int>>)
    ensures r.Some? <==>
              && !(recipientPays && amount < fee)
              && Transformable(funded.outs, funded.changePos, address)
              && ChangeOk(funded)
    ensures r.Some? ==> r.value == FinalOutputs(funded, fee)
    ensures r.Some? && DistinctAddresses(funded.outs) && FundedFor(funded, address, Requested(amount, fee, recipientPays)) ==>
              && funded.inputs - MapTotal(r.value) == fee
              && address in r.value
              && r.value[address] == Promised(amount, fee, recipientPays) >= 0
  {
    if recipientPays && amount < fee {
      return None;
    }
    var outs := new Output[|funded.outs|](i requires 0 <= i < |funded.outs| => funded.outs[i]);
    assert outs[..] == funded.outs;
    var ok := TransformTxToSetFixedFee(outs, funded.changePos, funded.autoFee, address, fee);
    if !ok {
      return None;
    }
    SameAddresses(funded, fee);
    r := EncodeTransformedTransaction(outs);
    if FundedFor(funded, address, Requested(amount, fee, recipientPays)) {
      FinalIsExact(funded, address, amount, fee, recipientPays);
    }
  }

  lemma SameAddresses(f: Funded, fee: nat)
    requires |f.outs| == ExpectedOutputs(f.changePos)
    ensures ChangeOk(f) <==> SingleAddresses(FinalOuts(f, fee))
  {
    var outs := FinalOuts(f, fee);
    assert forall i :: 0 <= i < |outs| ==> outs[i].addresses == f.outs[i].addresses;
  }

  function FinalOuts(f: Funded, fee: nat): seq<Output>
    requires |f.outs| == ExpectedOutputs(f.changePos)
  {
    Corrected(f.outs, RecipientPos(f.changePos), fee, f.autoFee)
  }

  function FinalOutputs(f: Funded, fee: nat): map<string, int>
    requires |f.outs| == ExpectedOutputs(f.changePos) && ChangeOk(f)
  {
    Encoded(FinalOuts(f, fee))
  }

  lemma FinalIsExact(f: Funded, address: string, amount: nat, fee: nat, recipientPays: bool)
    requires FundedFor(f, address, Requested(amount, fee, recipientPays))
    ensures ChangeOk(f) <==> SingleAddresses(FinalOuts(f, fee))
    ensures ChangeOk(f) && DistinctAddresses(f.outs) ==>
              && f.inputs - MapTotal(FinalOutputs(f, fee)) == fee
              && address in FinalOutputs(f, fee)
              && FinalOutputs(f, fee)[address] == Promised(amount, fee, recipientPays)
  {
    var outs, pos := FinalOuts(f, fee), RecipientPos(f.changePos);
    assert forall i :: 0 <= i < |outs| ==> outs[i].addresses == f.outs[i].addresses;
    if ChangeOk(f) && DistinctAddresses(f.outs) {
      EncodedTotal(outs);
      EncodedAt(outs, pos);
      CorrectedTotal(f.outs, pos, fee, f.autoFee);
      assert outs[pos].addresses[0] == address;
    }
  }

  /** What the recipient was promised. */
  function Promised(amount: nat, fee: nat, recipientPays: bool): int {
    if recipientPays then amount - fee else amount
  }

  /** The value the address map drops when the two outputs share an address: the first
      output is the change, or else the recipient's. */
  function DroppedValue(f: Funded, promised: int): int
    requires |f.outs| == ExpectedOutputs(f.changePos)
  {
    if f.changePos == 0 then f.outs[0].value else promised
  }

  /** The fee is exact if and only if the outputs have different addresses or the
      output that the map drops is worth nothing. */
  lemma FeeIsExactIff(f: Funded, address: string, amount: nat, fee: nat, recipientPays: bool)
    requires FundedFor(f, address, Requested(amount, fee, recipientPays)) && ChangeOk(f)
    ensures f.inputs - MapTotal(FinalOutputs(f, fee)) == fee <==>
              DistinctAddresses(f.outs) || DroppedValue(f, Promised(amount, fee, recipientPays)) == 0
  {
    var outs := FinalOuts(f, fee);
    assert forall i :: 0 <= i < |outs| ==> outs[i].addresses == f.outs[i].addresses;
    FinalIsExact(f, address, amount, fee, recipientPays);
    if !DistinctAddresses(f.outs) {
      CorrectedTotal(f.outs, RecipientPos(f.changePos), fee, f.autoFee);
      CollidingTotal(outs);
      assert outs[0].value == DroppedValue(f, Promised(amount, fee, recipientPays));
    }
  }

  /** The recipient gets what was promised if and only if the outputs have different
      addresses, the change comes first, or the change is worth just as much. */
  lemma RecipientIsPaidIff(f: Funded, address: string, amount: nat, fee: nat, recipientPays: bool)
    requires FundedFor(f, address, Requested(amount, fee, recipientPays)) && ChangeOk(f)
    ensures address in FinalOutputs(f, fee)
    ensures FinalOutputs(f, fee)[address] == Promised(amount, fee, recipientPays) <==>
              || DistinctAddresses(f.outs)
              || f.changePos == 0
              || f.outs[1].value == Promised(amount, fee, recipientPays)
  {
    var outs := FinalOuts(f, fee);
    assert forall i :: 0 <= i < |outs| ==> outs[i].addresses == f.outs[i].addresses;
    FinalIsExact(f, address, amount, fee, recipientPays);
    if !DistinctAddresses(f.outs) {
      assert outs[..1][0] == outs[0] && outs[..1][..0] == [];
      assert Encoded(outs) == Encoded(outs[..1])[address := outs[1].value];
    }
  }

  lemma TotalOfTwo(a: Output, b: Output)
    ensures TotalOut([a, b]) == a.value + b.value
  {
    var one := [a];
    assert one[..0] == [] && TotalOut(one) == TotalOut(one[..0]) + a.value;
    assert [a, b][..1] == one && TotalOut([a, b]) == TotalOut(one) + b.value;
  }

  /** Change to the recipient's own address, first: 60 satoshi of fee instead of 10. */
  lemma CollidingChangeFirst()
    ensures var f := Funded(150, [Output(["a"], 50), Output(["a"], 99)], 0, 1);
      && FundedFor(f, "a", Requested(100, 10, true)) && ChangeOk(f)
      && f.inputs - MapTotal(FinalOutputs(f, 10)) == 60
      && "a" in FinalOutputs(f, 10) && FinalOutputs(f, 10)["a"] == 90
  {
    var f := Funded(150, [Output(["a"], 50), Output(["a"], 99)], 0, 1);
    TotalOfTwo(f.outs[0], f.outs[1]);
    assert f.outs == [f.outs[0], f.outs[1]];
    var outs := FinalOuts(f, 10);
    assert outs == [Output(["a"], 50), Output(["a"], 90)];
    TotalOfTwo(outs[0], outs[1]);
    hide TotalOut, MapTotal;
    CollidingTotal(outs);
    RecipientIsPaidIff(f, "a", 100, 10, true);
  }

  /** The same with the change last: the recipient gets the 50 satoshi of change. */
  lemma CollidingChangeLast()
    ensures var f := Funded(150, [Output(["a"], 99), Output(["a"], 50)], 1, 1);
      && FundedFor(f, "a", Requested(100, 10, true)) && ChangeOk(f)
      && "a" in FinalOutputs(f, 10) && FinalOutputs(f, 10)["a"] != Promised(100, 10, true)
  {
    var f := Funded(150, [Output(["a"], 99), Output(["a"], 50)], 1, 1);
    TotalOfTwo(f.outs[0], f.outs[1]);
    assert f.outs == [f.outs[0], f.outs[1]];
    assert f.outs[0].addresses[0] == f.outs[1].addresses[0];
    hide TotalOut, MapTotal;
    RecipientIsPaidIff(f, "a", 100, 10, true);
  }

  lemma CollidingTotal(outs: seq<Output>)
    requires |outs| == 2 && SingleAddresses(outs) && outs[0].addresses[0] == outs[1].addresses[0]
    ensures MapTotal(Encoded(outs)) == TotalOut(outs) - outs[0].value
  {
    var a := outs[0].addresses[0];
    var one := outs[..1];
    assert one[..0] == [] && one[0] == outs[0];
    assert Encoded(one) == map[][a := outs[0].value];
    assert Encoded(outs) == Encoded(one)[a := outs[1].value];
    assert TotalOut(one) == outs[0].value && TotalOut(outs) == outs[0].value + outs[1].value;
    MapTotalUpdate(map[], a, outs[0].value);
    MapTotalUpdate(Encoded(one), a, outs[1].value);
  }
}
