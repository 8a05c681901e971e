// impl/rs/src/reader/optype/control_flow.rs: structured control flow and calls.
module RsControlFlow {
  import opened MachineInts
  import opened Wrappers
  import opened RsMessage
  import opened RsStringTable
  import opened RsValue
  import opened RsRegion

  /** A call of the module's function at `funcIdx`. */
  datatype FuncOp = FuncOp(funcIdx: u16)

  /** A switch: the encoded branches, the default region if one was read, and the shared tables. */
  datatype SwitchOp = SwitchOp(
    encBranches: seq<EncRegion>, default: Option<Region>, strings: StringTable, values: ValueTable)
  {
    /** The branches in stored order, each sharing the switch's tables. */
    function Branches(): (rs: seq<Region>)
      ensures |rs| == BranchCount()
      ensures forall i :: 0 <= i < |rs| ==> rs[i] == Region(encBranches[i], strings, values)
    {
      seq(|encBranches|, i requires 0 <= i < |encBranches| => Region(encBranches[i], strings, values))
    }

    function BranchCount(): (n: nat)
      ensures n == |encBranches|
    {
      |encBranches|
    }

    /**
     * The `n`-th branch. The source truncates `n` to `u32` and panics
     * (excluded here) when the truncated index is out of range.
     */
    function Branch(n: u64): (r: Region)
      requires AsU32(n) < BranchCount()
      ensures r == Branches()[AsU32(n)]
    {
      Region(encBranches[AsU32(n)], strings, values)
    }

    /**
     * `try_branch` as written: it truncates `n` to `u32` before the bounds
     * check, so an `n` of 2^32 or more can land back in range.
     */
    function TryBranch(n: u64): (r: Option<Region>)
      ensures r.None? <==> AsU32(n) >= BranchCount()
      ensures r.Some? ==> r.value == Branches()[AsU32(n)]
    {
      if AsU32(n) as int >= |encBranches| then None else Some(Branch(n))
    }

    /** `try_branch` as documented: `None` exactly when `n >= branch_count`. */
    function TryBranchChecked(n: u64): (r: Option<Region>)
      ensures r.None? <==> n >= BranchCount()
      ensures r.Some? ==> r.value == Branches()[n]
    {
      if n as int >= |encBranches| then None else Some(Region(encBranches[n], strings, values))
    }

    /** The default region, if the encoded switch had one that the library could read. */
    function DefaultBranch(): (r: Option<Region>)
      ensures r == default
    {
      default
    }
  }

  /** For every index below 2^32 the two `try_branch` versions agree. */
  lemma TryBranchCheckedAgrees(s: SwitchOp, n: u64)
    requires n < U32_LIMIT
    ensures s.TryBranch(n) == s.TryBranchChecked(n)
  {
  }

  /** A one-branch switch answers `try_branch(2^32)` with its first branch, although 2^32 >= 1. */
  lemma TryBranchWrapsAround(r: EncRegion, strings: StringTable, values: ValueTable)
    ensures var s := SwitchOp([r], None, strings, values);
      s.TryBranch(U32_LIMIT as u64) == Some(Region(r, strings, values))
      && s.TryBranchChecked(U32_LIMIT as u64) == None
  {
    var s := SwitchOp([r], None, strings, values);
    assert AsU32(U32_LIMIT as u64) == 0;
    assert s.Branches()[0] == Region(r, strings, values);
  }

  /** Reads a switch; the default is read with the same tables when the library yields one. */
  function ReadSwitch(branches: seq<EncRegion>, default: Option<EncRegion>, strings: StringTable, values: ValueTable): (s: SwitchOp)
    ensures s.BranchCount() == |branches| && s.strings == strings && s.values == values
    ensures s.DefaultBranch().None? <==> default.None?
    ensures default.Some? ==> s.DefaultBranch() == Some(Region(default.value, strings, values))
  {
    var d := match default
      case None => None
      case Some(r) => Some(Region(r, strings, values));
    SwitchOp(branches, d, strings, values)
  }

  /** A structured control-flow operation. */
  datatype ControlFlowOp =
    | Switch(switch: SwitchOp)
    | For(region: Region)
    | While(condition: Region, body: Region)
    | DoWhile(body: Region, condition: Region)

  /**
   * Reads a control-flow instruction. While keeps (condition, body), DoWhile
   * keeps (body, condition), and every region shares the operation's tables.
   */
  function ReadCapnp(scf: EncScf, strings: StringTable, values: ValueTable): (r: ControlFlowOp)
    ensures r.Switch? <==> scf.SSwitch?
    ensures r.For? <==> scf.SFor?
    ensures r.While? <==> scf.SWhile?
    ensures r.DoWhile? <==> scf.SDoWhile?
    ensures r.Switch? ==> r.switch == ReadSwitch(scf.branches, scf.default, strings, values)
    ensures r.For? ==> r.region == Region(scf.region, strings, values)
    ensures r.While? ==> r.condition.region == scf.condition && r.body.region == scf.body
    ensures r.DoWhile? ==> r.condition.region == scf.condition && r.body.region == scf.body
    ensures (r.While? || r.DoWhile?) ==> r.condition.strings == strings && r.condition.values == values
    ensures (r.While? || r.DoWhile?) ==> r.body.strings == strings && r.body.values == values
  {
    match scf
    case SSwitch(branches, default) => Switch(ReadSwitch(branches, default, strings, values))
    case SFor(region) => For(Region(region, strings, values))
    case SWhile(condition, body) => While(Region(condition, strings, values), Region(body, strings, values))
    case SDoWhile(body, condition) => DoWhile(Region(body, strings, values), Region(condition, strings, values))
  }
}
