/** What organizer edits do to the rules that govern scans. */
module Rules {
  import opened Domain
  import opened Protocol
  import opened Text
  import opened Transactions
  import opened Specs
  import opened LedgerInvariants

  function At(e: EntitlementInput): (Id, Id) {
    (e.attendee, e.checkpoint)
  }

  /** The override a successful edit stores, if it stores one. */
  function Stored(s: Store, e: EntitlementInput): Override
    requires e.rule.Some? && e.checkpoint in s.checkpoints
  {
    Override(if At(e) in s.overrides then s.overrides[At(e)].cycle
             else s.checkpoints[e.checkpoint].cycle, e.rule.value.0, e.rule.value.1)
  }

  /** The effect of a successful edit. */
  function EditEffect(s: Store, e: EntitlementInput): Effect
    requires e.checkpoint in s.checkpoints
  {
    if e.rule.Some? then
      SetOverride(e.attendee, e.checkpoint, Stored(s, e),
                  EntitlementOverridden(e.actor, e.attendee, e.checkpoint, e.rule.value.0, e.rule.value.1))
    else if At(e) in s.overrides then
      ClearOverride(e.attendee, e.checkpoint, EntitlementRemoved(e.actor, e.attendee, e.checkpoint))
    else Nothing
  }

  lemma EditHas(s: Store, e: EntitlementInput)
    requires EntitleAtomically(s, e).Finish?
    ensures e.checkpoint in s.checkpoints && (e.rule.Some? ==> 0 <= e.rule.value.1)
    ensures EntitleAtomically(s, e).effect == EditEffect(s, e)
  {
  }

  lemma EditApplied(s: Store, e: EntitlementInput)
    requires e.checkpoint in s.checkpoints
    ensures var s' := Apply(s, EditEffect(s, e));
            && s'.overrides == (if e.rule.Some? then s.overrides[At(e) := Stored(s, e)] else s.overrides - {At(e)})
            && s' == s.(overrides := s'.overrides, audits := s'.audits)
  {
    if e.rule.None? && At(e) !in s.overrides { assert s.overrides - {At(e)} == s.overrides; }
  }

  lemma EditWrites(s: Store, e: EntitlementInput)
    requires EntitleAtomically(s, e).Finish?
    ensures e.checkpoint in s.checkpoints && (e.rule.Some? ==> 0 <= e.rule.value.1)
    ensures var s' := Apply(s, EntitleAtomically(s, e).effect);
            && s'.overrides == (if e.rule.Some? then s.overrides[At(e) := Stored(s, e)] else s.overrides - {At(e)})
            && s' == s.(overrides := s'.overrides, audits := s'.audits)
  {
    EditHas(s, e);
    EditApplied(s, e);
  }

  /** A rule that was put is the rule in force, and nothing of the checkpoint's defaults shows through. */
  lemma PutIsInForce(s: Store, e: EntitlementInput)
    requires LimitInv(s) && EntitleAtomically(s, e).Finish? && e.rule.Some?
    ensures EffectiveRule(Apply(s, EntitleAtomically(s, e).effect), e.attendee, e.checkpoint)
            == Effective(e.rule.value.0, e.rule.value.1)
  {
    EditWrites(s, e);
    assert At(e) in s.overrides ==> s.overrides[At(e)].cycle == s.checkpoints[At(e).1].cycle;
  }

  /** After a deletion the checkpoint's defaults are in force again, whether or not there was a rule. */
  lemma DeleteRestoresDefaults(s: Store, e: EntitlementInput)
    requires LimitInv(s) && EntitleAtomically(s, e).Finish? && e.rule.None?
    ensures EffectiveRule(Apply(s, EntitleAtomically(s, e).effect), e.attendee, e.checkpoint)
         == Effective(s.checkpoints[e.checkpoint].defaultAllowed, s.checkpoints[e.checkpoint].defaultMax)
  {
    EditWrites(s, e);
  }

  /** Neither changes the rule of any other attendee or checkpoint. */
  lemma EditsAreLocal(s: Store, e: EntitlementInput, attendee: Id, checkpoint: Id)
    requires EntitleAtomically(s, e).Finish? && (attendee, checkpoint) != (e.attendee, e.checkpoint)
    requires checkpoint in s.checkpoints
    ensures checkpoint in Apply(s, EntitleAtomically(s, e).effect).checkpoints
    ensures EffectiveRule(Apply(s, EntitleAtomically(s, e).effect), attendee, checkpoint)
            == EffectiveRule(s, attendee, checkpoint)
  {
    EditWrites(s, e);
    SameRule(s, Apply(s, EntitleAtomically(s, e).effect), attendee, checkpoint);
  }

  lemma SameRule(s: Store, s': Store, attendee: Id, checkpoint: Id)
    requires s'.checkpoints == s.checkpoints && checkpoint in s.checkpoints
    requires Get(s'.overrides, (attendee, checkpoint)) == Get(s.overrides, (attendee, checkpoint))
    ensures EffectiveRule(s', attendee, checkpoint) == EffectiveRule(s, attendee, checkpoint)
  {
  }

  /** Whether an edit of valid limits goes through does not depend on the overrides there are. */
  lemma EditGoesThrough(s: Store, s': Store, e: EntitlementInput, e': EntitlementInput)
    requires EntitleAtomically(s, e).Finish? && s' == s.(overrides := s'.overrides, audits := s'.audits)
    requires e' == e.(rule := None)
    ensures EntitleAtomically(s', e').Finish?
  {
  }

  /** Putting a rule and deleting it leaves the overrides as a deletion alone would: without one for that pair. */
  lemma DeleteUndoesPut(s: Store, put: EntitlementInput, del: EntitlementInput)
    requires EntitleAtomically(s, put).Finish? && put.rule.Some? && del == put.(rule := None)
    ensures var s' := Apply(s, EntitleAtomically(s, put).effect);
            && EntitleAtomically(s', del).Finish? && EntitleAtomically(s, del).Finish?
            && Apply(s', EntitleAtomically(s', del).effect).overrides == s.overrides - {(put.attendee, put.checkpoint)}
            && Apply(s, EntitleAtomically(s, del).effect).overrides == s.overrides - {(put.attendee, put.checkpoint)}
  {
    var s' := Apply(s, EntitleAtomically(s, put).effect);
    EditWrites(s, put);
    EditGoesThrough(s, s', put, del);
    EditGoesThrough(s, s, put, del);
    EditWrites(s', del);
    EditWrites(s, del);
    assert s'.overrides - {At(put)} == s.overrides - {At(put)};
  }

  /** The fields of a checkpoint are valid exactly if slug and name have a word, the limit fits, no time is the zero
      instant and there is an instant at which the checkpoint is open. */
  lemma ValidMeans(f: Checkpoint)
    ensures ValidCheckpoint(f) <==>
      && Words(f.slug) > 0 && Words(f.name) > 0 && 0 <= f.defaultMax <= MAX_INT32
      && f.opensAt != Some(ZERO_TIME) && f.closesAt != Some(ZERO_TIME) && exists now :: Open(f, now)
  {
    BlankHasNoWords(f.slug);
    BlankHasNoWords(f.name);
    if ValidCheckpoint(f) {
      var now := if f.opensAt.Some? then f.opensAt.value else if f.closesAt.Some? then f.closesAt.value - 1 else 0;
      assert Open(f, now);
    }
  }

  /** A checkpoint becomes what a successful edit says, trimmed and in its own cycle; no other checkpoint changes. */
  lemma UpdateTakesEffect(s: Store, u: CheckpointInput)
    requires UpdateAtomically(s, u).Finish?
    ensures u.checkpoint in s.checkpoints && ValidCheckpoint(u.fields)
    ensures var cycle := s.checkpoints[u.checkpoint].cycle;
            var fields := u.fields.(slug := Trim(u.fields.slug), name := Trim(u.fields.name), cycle := cycle);
            Apply(s, UpdateAtomically(s, u).effect).checkpoints == s.checkpoints[u.checkpoint := fields]
  {
  }

  /** A valid edit of an existing checkpoint conflicts exactly if another checkpoint of its cycle has the slug. */
  lemma SlugConflicts(s: Store, u: CheckpointInput)
    requires SlugsIndexed(s.checkpoints, s.slugs) && ValidCheckpoint(u.fields) && u.checkpoint in s.checkpoints
    requires u.fields.activity.None?
    ensures UpdateAtomically(s, u) == Fail(Conflict) <==>
      exists c :: c in s.checkpoints && c != u.checkpoint
        && s.checkpoints[c].cycle == s.checkpoints[u.checkpoint].cycle && s.checkpoints[c].slug == Trim(u.fields.slug)
  {
    var at := (s.checkpoints[u.checkpoint].cycle, Trim(u.fields.slug));
    if at in s.slugs { assert s.slugs[at] in s.checkpoints; }
    if c :| c in s.checkpoints && c != u.checkpoint && (s.checkpoints[c].cycle, s.checkpoints[c].slug) == at {
      assert s.slugs[at] == c;
    }
  }

  /** A scan refused for want of a rule is redeemed once the attendee's own rule grants more uses than were made. */
  lemma PutLetsIn(s: Store, e: EntitlementInput, pass: Id, now: Time)
    requires LimitInv(s) && EntitleAtomically(s, e).Finish? && e.rule.Some? && e.rule.value.0
    requires Linked(s, pass) && s.passes[pass].attendee == e.attendee
    requires e.rule.value.1 > Count(s.redemptions, e.attendee, e.checkpoint)
    requires e.checkpoint in s.checkpoints && Judge(s, e.checkpoint, pass, now).outcome.NotEntitled?
    ensures e.checkpoint in Apply(s, EntitleAtomically(s, e).effect).checkpoints
    ensures Linked(Apply(s, EntitleAtomically(s, e).effect), pass)
    ensures Judge(Apply(s, EntitleAtomically(s, e).effect), e.checkpoint, pass, now).outcome.Redeemed?
  {
    EditWrites(s, e);
    PutIsInForce(s, e);
    SameCycle(s, e);
  }

  lemma SameCycle(s: Store, e: EntitlementInput)
    requires EntitleAtomically(s, e).Finish?
    ensures e.attendee in s.attendees && e.checkpoint in s.checkpoints
    ensures s.attendees[e.attendee].cycle == s.checkpoints[e.checkpoint].cycle
  {
  }
}
