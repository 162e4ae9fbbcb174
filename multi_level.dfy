/**
 * Two grouping levels, as the close loop is written: the footers of a break
 * are labelled and keyed by their position in the reversed list of changes,
 * not by the level that changed, and a deeper level whose own key is
 * unchanged is neither closed nor reopened when an outer level breaks.
 */
module MultiLevel {
  import opened Values
  import opened GroupBuilders
  import opened ControlBreak
  import opened EngineFacts
  import opened ChangeFacts

  /** The keys of one record on two levels. */
  lemma TwoKeys(specs: seq<GroupSpec>, rec: Record)
    requires |specs| == 2
    ensures GroupKeys(specs, rec) == [GroupKey(specs[0], rec), GroupKey(specs[1], rec)]
  {
    GroupKeysAt(specs, rec, 0);
    GroupKeysAt(specs, rec, 1);
  }

  /** Only the inner key differs: one change, on level 1. */
  lemma InnerChange(prev: seq<string>, cur: seq<string>)
    requires |prev| == 2 && |cur| == 2 && prev[0] == cur[0] && prev[1] != cur[1]
    ensures DetectChanges(prev, cur) == [(1, cur[1])]
  {
    assert Differing(prev, cur, 1) == [];
  }

  /** Only the outer key differs: one change, on level 0. */
  lemma OuterChange(prev: seq<string>, cur: seq<string>)
    requires |prev| == 2 && |cur| == 2 && prev[0] != cur[0] && prev[1] == cur[1]
    ensures DetectChanges(prev, cur) == [(0, cur[0])]
  {
    assert Differing(prev, cur, 1) == [(0, cur[0])];
  }

  lemma PrefixKeyFirst(keys: seq<string>)
    requires |keys| >= 1
    ensures PrefixKey(keys, 0) == keys[0]
  {
    assert Take(keys, 1) == [keys[0]];
  }

  /**
   * When only the inner group ends, the one footer emitted is labelled
   * `groupFooter_0` and shows the state of the outer group, which it then
   * removes (`InnerBreakStates`); then the inner group is reopened on the
   * record.
   */
  lemma {:induction false} InnerBreakBands(specs: seq<GroupSpec>, e: Engine, prev: seq<string>, rec: Record)
    requires |specs| == 2 && |prev| == 2
    requires GroupKey(specs[0], rec) == prev[0] && GroupKey(specs[1], rec) != prev[1]
    ensures StepBands(specs, e, prev, rec)
         == [Footer(e.states, 0, prev[0]), OpenedHeader(specs, 1, rec), DetailBand(rec)]
  {
    var cur := GroupKeys(specs, rec);
    TwoKeys(specs, rec);
    InnerChange(prev, cur);
    PrefixKeyFirst(prev);
    assert ClosedKeys(prev, 0) == {};
    assert ClosingFooters(e.states, prev, 1) == [Footer(e.states, 0, prev[0])];
    assert OpeningHeaders(specs, rec, [(1, cur[1])], 1) == [OpenedHeader(specs, 1, rec)];
  }

  /**
   * When only the outer key changes, the footer of the outer group is
   * emitted and the outer group reopened, while the inner group, whose key
   * is unchanged, gets neither a footer nor a header.
   */
  lemma {:induction false} OuterBreakBands(specs: seq<GroupSpec>, e: Engine, prev: seq<string>, rec: Record)
    requires |specs| == 2 && |prev| == 2
    requires GroupKey(specs[0], rec) != prev[0] && GroupKey(specs[1], rec) == prev[1]
    ensures StepBands(specs, e, prev, rec)
         == [Footer(e.states, 0, prev[0]), OpenedHeader(specs, 0, rec), DetailBand(rec)]
  {
    var cur := GroupKeys(specs, rec);
    TwoKeys(specs, rec);
    OuterChange(prev, cur);
    PrefixKeyFirst(prev);
    assert ClosedKeys(prev, 0) == {};
    assert ClosingFooters(e.states, prev, 1) == [Footer(e.states, 0, prev[0])];
    assert OpeningHeaders(specs, rec, [(0, cur[0])], 1) == [OpenedHeader(specs, 0, rec)];
  }

  /**
   * When both keys change, two footers are emitted, labelled 0 then 1: the
   * first shows the outer group and the second the inner one, so the outer
   * group's footer comes first.
   */
  lemma {:induction false} BothBreakBands(specs: seq<GroupSpec>, e: Engine, prev: seq<string>, rec: Record)
    requires |specs| == 2 && |prev| == 2
    requires GroupKey(specs[0], rec) != prev[0] && GroupKey(specs[1], rec) != prev[1]
    ensures StepFooters(specs, e, prev, rec)
         == [Footer(e.states, 0, prev[0]),
             Footer(e.states - {prev[0]}, 1, PrefixKey(prev, 1))]
  {
    var cur := GroupKeys(specs, rec);
    TwoKeys(specs, rec);
    assert Differing(prev, cur, 1) == [(0, cur[0])];
    assert DetectChanges(prev, cur) == [(0, cur[0]), (1, cur[1])];
    PrefixKeyFirst(prev);
    assert ClosedKeys(prev, 0) == {};
    assert ClosedKeys(prev, 1) == {prev[0]};
  }

  /** Two two-level vectors that share the outer key but not the inner one have different inner composite keys. */
  lemma InnerKeysDiffer(prev: seq<string>, cur: seq<string>)
    requires |prev| == 2 && |cur| == 2 && prev[0] == cur[0] && prev[1] != cur[1]
    ensures PrefixKey(prev, 1) != PrefixKey(cur, 1)
  {
    JoinStep(prev, 1);
    JoinStep(cur, 1);
    assert Take(prev, 2) == prev[..2] && Take(cur, 2) == cur[..2];
    var x := prev[0] + "|";
    assert PrefixKey(prev, 1) == x + prev[1];
    assert PrefixKey(cur, 1) == x + cur[1];
    assert (x + prev[1])[|x|..] == prev[1];
    assert (x + cur[1])[|x|..] == cur[1];
  }

  /**
   * The states after an inner break: the footer at position 0 has removed
   * the outer group's state, the new inner group has a state fed the
   * record, and the old inner group's state is kept and fed as well.
   */
  lemma {:induction false} InnerBreakStates(specs: seq<GroupSpec>, e: Engine, prev: seq<string>, rec: Record)
    requires |specs| == 2 && |prev| == 2
    requires GroupKey(specs[0], rec) == prev[0] && GroupKey(specs[1], rec) != prev[1]
    ensures var s := Step(specs, e, prev, rec).states;
            var newKey := PrefixKey(GroupKeys(specs, rec), 1);
            prev[0] !in s && newKey in s && s[newKey] == FeedState(Opened(specs[1], rec), rec)
    ensures var s := Step(specs, e, prev, rec).states;
            var inner := PrefixKey(prev, 1);
            inner in e.states ==> inner in s && s[inner] == FeedState(e.states[inner], rec)
  {
    var cur := GroupKeys(specs, rec);
    TwoKeys(specs, rec);
    InnerChange(prev, cur);
    PrefixKeyFirst(prev);
    PrefixKeyFirst(cur);
    PrefixKeysDistinct(prev, 0, 1);
    PrefixKeysDistinct(cur, 0, 1);
    InnerKeysDiffer(prev, cur);
    var newKey := PrefixKey(cur, 1);
    var closed := CloseGroups(e, prev, 1);
    assert CloseGroups(e, prev, 0) == e;
    assert closed == CloseOne(e, prev, 0);
    assert closed.states == e.states - {prev[0]};
    var r := OpenGroups(specs, closed, cur, rec, [(1, cur[1])], 1);
    assert OpenGroups(specs, closed, cur, rec, [(1, cur[1])], 0) == closed;
    assert r == OpenOne(specs, closed, cur, rec, 1);
    assert r.states == closed.states[newKey := Opened(specs[1], rec)];
    assert Reorganise(specs, e, prev, rec) == r;
  }

  /**
   * Once removed, the outer group's state does not come back while the
   * outer key stays the same, so the footer that finally closes the outer
   * group shows the context of an absent state.
   */
  lemma {:induction false} OuterStateStaysAbsent(specs: seq<GroupSpec>, e: Engine, prev: seq<string>, rec: Record)
    requires |specs| == 2 && |prev| == 2
    requires GroupKey(specs[0], rec) == prev[0] && prev[0] !in e.states
    ensures prev[0] !in Step(specs, e, prev, rec).states
  {
    if GroupKey(specs[1], rec) != prev[1] {
      InnerBreakStates(specs, e, prev, rec);
    } else {
      var cur := GroupKeys(specs, rec);
      TwoKeys(specs, rec);
      assert Differing(prev, cur, 1) == [];
      assert Differing(prev, cur, 2) == [];
      assert DetectChanges(prev, cur) == [];
      assert Reorganise(specs, e, prev, rec) == e;
    }
  }
}
