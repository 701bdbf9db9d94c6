/**
 * behaviors/blockBreaking.js: every few seconds, with some probability, the
 * bot picks a breakable block near it (preferred kinds first, then the
 * nearest) and digs it with its best tool; a flag keeps two digs from
 * overlapping and is released however the dig ends.
 */
module BlockBreaking {
  import opened Wrappers
  import opened Strings

  /** A block as the behaviour sees it: its name and hardness (`None` when the game gives none). */
  datatype Block = Block(name: string, hardness: Option<real>)

  /** A breakable block found at offset (x, y, z) from the bot's position. */
  datatype Candidate = Candidate(block: Block, x: real, y: int, z: real)

  /** An inventory item and how long it would take to dig the target block with it. */
  datatype Tool = Tool(name: string, digTime: real)

  /** The block at `position.offset(x, y, z)`, if any. */
  type Probe = (real, int, real) -> Option<Block>

  const AvoidNames: seq<string> := [
    "bedrock", "barrier", "command_block", "structure_block", "spawner", "chest",
    "ender_chest", "trapped_chest", "furnace", "blast_furnace", "smoker", "dispenser",
    "dropper", "hopper", "beacon", "conduit"]

  /** `isBreakableBlock(block)` */
  predicate IsBreakableBlock(block: Option<Block>) {
    if block.None? || block.value.name == "air" then false
    else if block.value.name in AvoidNames then false
    else block.value.hardness.Some? && block.value.hardness.value < 50.0
  }

  /** config.js: the kinds the behaviour digs first. */
  const ConfiguredPreferredBlocks: seq<string> :=
    ["dirt", "grass_block", "stone", "cobblestone", "oak_log", "birch_log"]

  /**
   * No configured preferred kind is air or protected, so a preferred block is
   * passed over only for its hardness: it is breakable exactly when its
   * hardness is defined and below 50.
   */
  lemma {:induction false} PreferredKindsAreNotProtected(name: string, hardness: Option<real>)
    requires name in ConfiguredPreferredBlocks
    ensures IsBreakableBlock(Some(Block(name, hardness))) <==> hardness.Some? && hardness.value < 50.0
  {
    assert name != "air" && name !in AvoidNames by {
      var i :| 0 <= i < |ConfiguredPreferredBlocks| && ConfiguredPreferredBlocks[i] == name;
      assert forall j :: 0 <= j < |AvoidNames| ==> AvoidNames[j] != ConfiguredPreferredBlocks[i];
    }
  }

  /** Squared distance from the bot to an offset; the source compares the square root, which orders alike. */
  function DistSq(x: real, y: int, z: real): real {
    x * x + (y * y) as real + z * z
  }

  /** The i-th value of a scan variable running from -reach to reach in steps of 1. */
  function GridValue(reach: real, i: nat): real {
    -reach + i as real
  }

  predicate Qualifies(probe: Probe, reach: real, i: nat, y: int, k: nat) {
    var x, z := GridValue(reach, i), GridValue(reach, k);
    IsBreakableBlock(probe(x, y, z)) && DistSq(x, y, z) <= reach * reach
  }

  function CandidateAt(probe: Probe, reach: real, i: nat, y: int, k: nat): Candidate
    requires Qualifies(probe, reach, i, y, k)
  {
    var x, z := GridValue(reach, i), GridValue(reach, k);
    Candidate(probe(x, y, z).value, x, y, z)
  }

  /** The candidate came from the probe, is breakable, in the y range and within reach. */
  predicate Sound(probe: Probe, reach: real, c: Candidate) {
    && probe(c.x, c.y, c.z) == Some(c.block) && IsBreakableBlock(Some(c.block))
    && -2 <= c.y <= 2 && DistSq(c.x, c.y, c.z) <= reach * reach
  }

  predicate Preferred(preferred: seq<string>, c: Candidate) {
    c.block.name in preferred
  }

  /** The candidate is the block at one of the scanned grid positions. */
  ghost predicate OnGrid(probe: Probe, reach: real, c: Candidate) {
    exists i: nat, y: int, k: nat | InGrid(reach, i) && -2 <= y <= 2 && InGrid(reach, k) && Qualifies(probe, reach, i, y, k) ::
      c == CandidateAt(probe, reach, i, y, k)
  }

  /** The sort order: preferred kinds first, then smaller distance. */
  predicate Before(preferred: seq<string>, a: Candidate, b: Candidate) {
    || (Preferred(preferred, a) && !Preferred(preferred, b))
    || (Preferred(preferred, a) == Preferred(preferred, b) && DistSq(a.x, a.y, a.z) < DistSq(b.x, b.y, b.z))
  }

  /** Scan order of the nested loops: x outermost, then y, then z. */
  predicate Scanned(i: nat, y: int, k: nat, xi: nat, yc: int, zk: nat) {
    i < xi || (i == xi && (y < yc || (y == yc && k < zk)))
  }

  predicate InGrid(reach: real, i: nat) {
    GridValue(reach, i) <= reach
  }

  lemma GridBound(reach: real, i: nat, n: nat)
    requires InGrid(reach, i) && !InGrid(reach, n)
    ensures i < n
  {
  }

  /** Each name containing "pickaxe" also contains "axe", so the first test of the tool filter never decides. */
  lemma PickaxeIsAxe(name: string)
    requires Contains(name, "pickaxe")
    ensures Contains(name, "axe")
  {
    assert OccursAt("pickaxe", "axe", 4);
    ContainsTransitive(name, "pickaxe", "axe");
  }

  predicate IsTool(name: string) {
    Contains(name, "pickaxe") || Contains(name, "axe") || Contains(name, "shovel") || Contains(name, "hoe")
  }

  class BlockBreakingBehavior {
    /** config.behavior.blockBreaking */
    const breakChance: real
    const maxReach: real
    const preferredBlocks: seq<string>

    /** `isBreaking` and whether `breakingTimer` is set. */
    var isBreaking: bool
    var timerArmed: bool

    constructor (breakChance: real, maxReach: real, preferredBlocks: seq<string>)
      ensures this.breakChance == breakChance && this.maxReach == maxReach && this.preferredBlocks == preferredBlocks
      ensures !isBreaking && !timerArmed
    {
      this.breakChance, this.maxReach, this.preferredBlocks := breakChance, maxReach, preferredBlocks;
      isBreaking, timerArmed := false, false;
    }

    /** `scheduleNextBreak()`: any armed timer is replaced by a new one. */
    method ScheduleNextBreak()
      modifies this`timerArmed
      ensures timerArmed
    {
      timerArmed := true;
    }

    /**
     * `findBreakableBlock()`: scan x and z from -reach to reach and y from -2
     * to 2, keep the breakable blocks within reach, and take the first in
     * sort order. The result is `None` exactly when nothing qualifies, and
     * otherwise no qualifying block sorts before it.
     */
    method FindBreakableBlock(probe: Probe) returns (target: Option<Candidate>)
      ensures target.Some? ==> Sound(probe, maxReach, target.value) && OnGrid(probe, maxReach, target.value)
      ensures target.Some? ==>
        var b := target.value.block;
        b.name != "air" && b.name !in AvoidNames && b.hardness.Some? && b.hardness.value < 50.0
      ensures target.None? ==>
        forall i: nat, y: int, k: nat | InGrid(maxReach, i) && -2 <= y <= 2 && InGrid(maxReach, k) ::
          !Qualifies(probe, maxReach, i, y, k)
      ensures target.Some? ==>
        forall i: nat, y: int, k: nat | InGrid(maxReach, i) && -2 <= y <= 2 && InGrid(maxReach, k) && Qualifies(probe, maxReach, i, y, k) ::
          !Before(preferredBlocks, CandidateAt(probe, maxReach, i, y, k), target.value)
    {
      var reach := maxReach;
      var blocks: seq<Candidate> := [];
      var xi: nat := 0;
      while InGrid(reach, xi)
        invariant forall c | c in blocks :: Sound(probe, reach, c) && OnGrid(probe, reach, c)
        invariant forall i: nat, y: int, k: nat | Scanned(i, y, k, xi, -2, 0) && -2 <= y <= 2 && InGrid(reach, k) && Qualifies(probe, reach, i, y, k) ::
          CandidateAt(probe, reach, i, y, k) in blocks
        decreases (2.0 * reach).Floor + 1 - xi
      {
        var yc := -2;
        while yc <= 2
          invariant -2 <= yc <= 3
          invariant forall c | c in blocks :: Sound(probe, reach, c) && OnGrid(probe, reach, c)
          invariant forall i: nat, y: int, k: nat | Scanned(i, y, k, xi, yc, 0) && -2 <= y <= 2 && InGrid(reach, k) && Qualifies(probe, reach, i, y, k) ::
            CandidateAt(probe, reach, i, y, k) in blocks
        {
          var zk: nat := 0;
          while InGrid(reach, zk)
            invariant forall c | c in blocks :: Sound(probe, reach, c) && OnGrid(probe, reach, c)
            invariant forall i: nat, y: int, k: nat | Scanned(i, y, k, xi, yc, zk) && -2 <= y <= 2 && InGrid(reach, k) && Qualifies(probe, reach, i, y, k) ::
              CandidateAt(probe, reach, i, y, k) in blocks
            decreases (2.0 * reach).Floor + 1 - zk
          {
            var x, z := GridValue(reach, xi), GridValue(reach, zk);
            var block := probe(x, yc, z);
            if block.Some? && IsBreakableBlock(block) {
              if DistSq(x, yc, z) <= reach * reach {
                assert Qualifies(probe, reach, xi, yc, zk);
                assert OnGrid(probe, reach, CandidateAt(probe, reach, xi, yc, zk));
                blocks := blocks + [Candidate(block.value, x, yc, z)];
              }
            }
            zk := zk + 1;
          }
          forall i: nat, y: int, k: nat | Scanned(i, y, k, xi, yc + 1, 0) && -2 <= y <= 2 && InGrid(reach, k)
            ensures Scanned(i, y, k, xi, yc, zk)
          {
            GridBound(reach, k, zk);
          }
          yc := yc + 1;
        }
        xi := xi + 1;
      }
      if blocks == [] {
        return None;
      }
      var m := FirstInOrder(blocks);
      target := Some(blocks[m]);
    }

    /** The stable sort followed by `blocks[0]`: the first entry nothing sorts before. */
    method FirstInOrder(blocks: seq<Candidate>) returns (m: nat)
      requires 0 < |blocks|
      ensures m < |blocks|
      ensures forall j :: 0 <= j < |blocks| ==> !Before(preferredBlocks, blocks[j], blocks[m])
      ensures forall j :: 0 <= j < m ==> Before(preferredBlocks, blocks[m], blocks[j])
    {
      m := 0;
      var j := 1;
      while j < |blocks|
        invariant m < j <= |blocks|
        invariant forall i :: 0 <= i < j ==> !Before(preferredBlocks, blocks[i], blocks[m])
        invariant forall i :: 0 <= i < m ==> Before(preferredBlocks, blocks[m], blocks[i])
      {
        if Before(preferredBlocks, blocks[j], blocks[m]) {
          m := j;
        }
        j := j + 1;
      }
    }

    /**
     * `attemptBreakBlock()`: nothing while a dig is in flight or when the roll
     * exceeds the break chance; otherwise a found block's dig is started.
     */
    method AttemptBreakBlock(roll: real, probe: Probe) returns (started: Option<Candidate>)
      modifies this`isBreaking
      ensures old(isBreaking) || roll > breakChance ==> started.None? && isBreaking == old(isBreaking)
      ensures started.Some? ==>
        !old(isBreaking) && isBreaking && Sound(probe, maxReach, started.value) && OnGrid(probe, maxReach, started.value)
      ensures !old(isBreaking) && roll <= breakChance && started.None? ==>
        !isBreaking &&
        forall i: nat, y: int, k: nat | InGrid(maxReach, i) && -2 <= y <= 2 && InGrid(maxReach, k) ::
          !Qualifies(probe, maxReach, i, y, k)
      ensures started.Some? ==>
        forall i: nat, y: int, k: nat | InGrid(maxReach, i) && -2 <= y <= 2 && InGrid(maxReach, k) && Qualifies(probe, maxReach, i, y, k) ::
          !Before(preferredBlocks, CandidateAt(probe, maxReach, i, y, k), started.value)
    {
      if isBreaking || roll > breakChance {
        return None;
      }
      var target := FindBreakableBlock(probe);
      started := None;
      if target.Some? {
        var ok := BreakBlockStart();
        started := target;
      }
    }

    /** The synchronous part of `breakBlock(block)`: claim the flag unless a dig is in flight. */
    method BreakBlockStart() returns (started: bool)
      modifies this`isBreaking
      ensures started <==> !old(isBreaking)
      ensures isBreaking
    {
      if isBreaking {
        return false;
      }
      isBreaking := true;
      started := true;
    }

    /** The `finally` of `breakBlock`: the flag is released whether the dig succeeded or threw. */
    method BreakBlockSettle(digOk: bool)
      modifies this`isBreaking
      ensures !isBreaking
    {
      isBreaking := false;
    }

    /** The break timer fires: one attempt, then the next timer is armed. */
    method FireBreakTimer(roll: real, probe: Probe) returns (started: Option<Candidate>)
      modifies this`isBreaking, this`timerArmed
      ensures timerArmed
      ensures old(isBreaking) || roll > breakChance ==> started.None? && isBreaking == old(isBreaking)
      ensures started.Some? ==>
        !old(isBreaking) && isBreaking && Sound(probe, maxReach, started.value) && OnGrid(probe, maxReach, started.value)
      ensures !old(isBreaking) && roll <= breakChance && started.None? ==>
        !isBreaking &&
        forall i: nat, y: int, k: nat | InGrid(maxReach, i) && -2 <= y <= 2 && InGrid(maxReach, k) ::
          !Qualifies(probe, maxReach, i, y, k)
      ensures started.Some? ==>
        forall i: nat, y: int, k: nat | InGrid(maxReach, i) && -2 <= y <= 2 && InGrid(maxReach, k) && Qualifies(probe, maxReach, i, y, k) ::
          !Before(preferredBlocks, CandidateAt(probe, maxReach, i, y, k), started.value)
    {
      started := AttemptBreakBlock(roll, probe);
      ScheduleNextBreak();
    }

    /** `cleanup()` */
    method Cleanup()
      modifies this`isBreaking, this`timerArmed
      ensures !isBreaking && !timerArmed
    {
      timerArmed := false;
      isBreaking := false;
    }
  }

  /**
   * `equipBestTool(block)`: the first tool with the strictly smallest dig
   * time is chosen; it is equipped unless nothing qualifies or it is already
   * held.
   */
  method EquipBestTool(tools: seq<Tool>, held: Option<nat>) returns (best: Option<nat>, equip: bool)
    ensures best.None? <==> forall j :: 0 <= j < |tools| ==> !IsTool(tools[j].name)
    ensures best.Some? ==>
      && best.value < |tools| && IsTool(tools[best.value].name)
      && (forall j :: 0 <= j < |tools| && IsTool(tools[j].name) ==> tools[best.value].digTime <= tools[j].digTime)
      && (forall j :: 0 <= j < best.value && IsTool(tools[j].name) ==> tools[best.value].digTime < tools[j].digTime)
    ensures equip <==> best.Some? && held != best
  {
    best := None;
    var j := 0;
    while j < |tools|
      invariant j <= |tools|
      invariant best.None? <==> forall i :: 0 <= i < j ==> !IsTool(tools[i].name)
      invariant best.Some? ==>
        && best.value < j && IsTool(tools[best.value].name)
        && (forall i :: 0 <= i < j && IsTool(tools[i].name) ==> tools[best.value].digTime <= tools[i].digTime)
        && (forall i :: 0 <= i < best.value && IsTool(tools[i].name) ==> tools[best.value].digTime < tools[i].digTime)
    {
      var tool := tools[j];
      if IsTool(tool.name) {
        if best.None? || tool.digTime < tools[best.value].digTime {
          best := Some(j);
        }
      }
      j := j + 1;
    }
    equip := best.Some? && held != best;
  }
}
