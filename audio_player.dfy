/**
 * The client's `AudioPlayer`: it plays a buffer through a per-source gain
 * stage into a master gain stage and keeps, per buffer, the latest source
 * node and gain node in two maps, which the source's end event empties again.
 *
 * The audio graph itself (node creation, connections, `start`) belongs to the
 * audio backend: a node is represented by an abstract id handed out by a
 * counter, with the attributes the player sets on it.
 */
module AudioPlayback {

  import opened Common

  /** The identity of a node of the audio graph. */
  type NodeId = nat

  /** A buffer source node as the player configures it. */
  datatype SourceNode = SourceNode(id: NodeId, buffer: BufferId, loop: bool)

  /** A gain node with its gain value. */
  datatype GainNode = GainNode(id: NodeId, level: real)

  /** The largest per-source gain. */
  const MaxGain: real := 3.0

  /** `Math.min(Math.abs(soundLvl), 3.0)`: the sound level's magnitude, capped. */
  function ClampGain(soundLvl: real): (g: real)
    ensures 0.0 <= g <= MaxGain
    ensures g <= Abs(soundLvl)
    ensures g == Abs(soundLvl) || g == MaxGain
  {
    if Abs(soundLvl) < MaxGain then Abs(soundLvl) else MaxGain
  }

  /** A level within range is kept as it is, a negative one is mirrored. */
  lemma ClampGainKeepsLevelsInRange(soundLvl: real)
    requires -MaxGain <= soundLvl <= MaxGain
    ensures ClampGain(soundLvl) == Abs(soundLvl)
  {
  }

  class AudioPlayer {
    /** `srcMap`: buffer to the latest source node played from it. */
    var srcMap: map<BufferId, SourceNode>
    /** `gainMap`: buffer to that source's gain node. */
    var gainMap: map<BufferId, GainNode>
    /** The gain of the master gain node `gainNode`. */
    var masterLevel: real
    /** The next id the audio backend hands out; every node created so far has a smaller one. */
    var nextNode: NodeId

    /** The two maps have the same keys; each entry describes a source of
        its own buffer whose gain is in range. */
    ghost predicate Valid()
      reads this
    {
      && srcMap.Keys == gainMap.Keys
      && (forall b :: b in srcMap ==> srcMap[b].buffer == b && srcMap[b].id < nextNode)
      && (forall b :: b in gainMap ==> 0.0 <= gainMap[b].level <= MaxGain && gainMap[b].id < nextNode)
    }

    constructor ()
      ensures Valid()
      ensures srcMap == map[] && gainMap == map[]
      ensures masterLevel == 1.0
    {
      srcMap := map[];
      gainMap := map[];
      masterLevel := 1.0;
      nextNode := 0;
    }

    /** `playSound`: creates a source for `buffer` and a gain node for it,
        starts the source and records both nodes under `buffer`. The backend
        hands out the ids `nextNode` and `nextNode + 1`, which no existing
        node has. */
    method PlaySound(buffer: BufferId, soundLvl: real, loop: bool := false)
      requires Valid()
      modifies this
      ensures Valid()
      ensures masterLevel == old(masterLevel) && nextNode == old(nextNode) + 2
      ensures srcMap == old(srcMap)[buffer := SourceNode(old(nextNode), buffer, loop)]
      ensures gainMap == old(gainMap)[buffer := GainNode(old(nextNode) + 1, ClampGain(soundLvl))]
      ensures |srcMap| == if buffer in old(srcMap) then |old(srcMap)| else |old(srcMap)| + 1
    {
      var src := SourceNode(nextNode, buffer, loop);
      var gain := GainNode(nextNode + 1, ClampGain(soundLvl));
      nextNode := nextNode + 2;
      srcMap := srcMap[buffer := src];
      gainMap := gainMap[buffer := gain];
    }

    /** The source's `onended` callback: it was bound to the buffer, so it
        removes whatever entry the buffer has now, even one a later
        `PlaySound` of the same buffer put there. */
    method OnEnded(buffer: BufferId)
      requires Valid()
      modifies this
      ensures Valid()
      ensures masterLevel == old(masterLevel) && nextNode == old(nextNode)
      ensures buffer !in srcMap && buffer !in gainMap
      ensures srcMap == old(srcMap) - {buffer} && gainMap == old(gainMap) - {buffer}
      ensures |srcMap| == if buffer in old(srcMap) then |old(srcMap)| - 1 else |old(srcMap)|
    {
      srcMap := srcMap - {buffer};
      gainMap := gainMap - {buffer};
    }
  }

  /** The buffers occurring in `buffers`. */
  ghost function Elems(buffers: seq<BufferId>): set<BufferId>
  {
    set b | b in buffers
  }

  /** Extending a prefix by one element adds that element. */
  lemma ElemsPrefix(buffers: seq<BufferId>, i: nat)
    requires i < |buffers|
    ensures Elems(buffers[..i + 1]) == Elems(buffers[..i]) + {buffers[i]}
  {
    assert buffers[..i + 1] == buffers[..i] + [buffers[i]];
  }

  /** One step of a loop that adds `x` to both a key set and a set of buffers seen. */
  lemma UnionStep(after: set<BufferId>, before: set<BufferId>, keys: set<BufferId>, seen: set<BufferId>, x: BufferId)
    requires before == keys + seen && after == before + {x}
    ensures after == keys + (seen + {x})
  {
  }

  /** One step of a loop that removes `x` from a key set and adds it to the buffers seen. */
  lemma DifferenceStep(after: set<BufferId>, before: set<BufferId>, keys: set<BufferId>, seen: set<BufferId>, x: BufferId)
    requires before == keys - seen && after == before - {x}
    ensures after == keys - (seen + {x})
  {
  }

  /** The whole sequence is its longest prefix. */
  lemma ElemsWhole(buffers: seq<BufferId>)
    ensures Elems(buffers[..|buffers|]) == Elems(buffers)
  {
    assert buffers[..|buffers|] == buffers;
  }

  lemma KeysAfterUpdate(m: map<BufferId, SourceNode>, m0: map<BufferId, SourceNode>, k: BufferId, v: SourceNode)
    requires m == m0[k := v]
    ensures m.Keys == m0.Keys + {k}
  {
  }

  lemma KeysAfterRemoval(m: map<BufferId, SourceNode>, m0: map<BufferId, SourceNode>, k: BufferId)
    requires m == m0 - {k}
    ensures m.Keys == m0.Keys - {k}
  {
  }

  /** Plays every buffer of `buffers` in turn. */
  method PlayAll(player: AudioPlayer, buffers: seq<BufferId>, soundLvl: real)
    requires player.Valid()
    modifies player
    ensures player.Valid()
    ensures player.srcMap.Keys == old(player.srcMap.Keys) + Elems(buffers)
  {
    ghost var keys := player.srcMap.Keys;
    var i := 0;
    while i < |buffers|
      invariant 0 <= i <= |buffers|
      invariant player.Valid()
      invariant player.srcMap.Keys == keys + Elems(buffers[..i])
    {
      ElemsPrefix(buffers, i);
      ghost var before, n := player.srcMap, player.nextNode;
      player.PlaySound(buffers[i], soundLvl);
      KeysAfterUpdate(player.srcMap, before, buffers[i], SourceNode(n, buffers[i], false));
      UnionStep(player.srcMap.Keys, before.Keys, keys, Elems(buffers[..i]), buffers[i]);
      i := i + 1;
    }
    ElemsWhole(buffers);
  }

  /** Delivers an end event for every buffer of `buffers` in turn. */
  method EndAll(player: AudioPlayer, buffers: seq<BufferId>)
    requires player.Valid()
    modifies player
    ensures player.Valid()
    ensures player.srcMap.Keys == old(player.srcMap.Keys) - Elems(buffers)
  {
    ghost var keys := player.srcMap.Keys;
    var i := 0;
    while i < |buffers|
      invariant 0 <= i <= |buffers|
      invariant player.Valid()
      invariant player.srcMap.Keys == keys - Elems(buffers[..i])
    {
      ElemsPrefix(buffers, i);
      ghost var before := player.srcMap;
      player.OnEnded(buffers[i]);
      KeysAfterRemoval(player.srcMap, before, buffers[i]);
      DifferenceStep(player.srcMap.Keys, before.Keys, keys, Elems(buffers[..i]), buffers[i]);
      i := i + 1;
    }
    ElemsWhole(buffers);
  }

  /** Playing every buffer of `buffers` and then delivering an end event for
      each leaves no entry for any of them and keeps the key of every other
      buffer: nothing leaks, and a player that started empty is empty again. */
  method PlayThenEndAll(player: AudioPlayer, buffers: seq<BufferId>, soundLvl: real)
    requires player.Valid()
    modifies player
    ensures player.Valid()
    ensures forall b :: b in player.srcMap <==> b in old(player.srcMap) && b !in buffers
    ensures old(player.srcMap) == map[] ==> player.srcMap == map[] && player.gainMap == map[]
  {
    PlayAll(player, buffers, soundLvl);
    EndAll(player, buffers);
    forall b
      ensures b in player.srcMap <==> b in old(player.srcMap) && b !in buffers
    {
      assert b in Elems(buffers) <==> b in buffers;
    }
    if old(player.srcMap) == map[] {
      assert player.srcMap.Keys == {};
    }
  }

  /** Replaying a buffer before the first source ends, then delivering the
      first source's end event. `first` and `second` are the ids the backend
      hands out for the two sources; `removed` is the id of the source the
      end event finds under `buffer`: the second one, which is still playing.
      Afterwards the buffer has no entry and every other entry is as before. */
  method ReplayThenFirstEnds(player: AudioPlayer, buffer: BufferId) returns (first: NodeId, second: NodeId, removed: NodeId)
    requires player.Valid()
    modifies player
    ensures player.Valid()
    ensures first == old(player.nextNode) && second == old(player.nextNode) + 2
    ensures removed == second && first != removed
    ensures player.nextNode == old(player.nextNode) + 4
    ensures player.srcMap == old(player.srcMap) - {buffer} && player.gainMap == old(player.gainMap) - {buffer}
  {
    player.PlaySound(buffer, 1.0);
    first := player.srcMap[buffer].id;
    player.PlaySound(buffer, 1.0);
    second := player.srcMap[buffer].id;
    removed := player.srcMap[buffer].id;
    player.OnEnded(buffer);
  }
}
