/**
 * Approval of one product under seller edits, from its creation: a product is approved only
 * while an administrator's approval stands, and exactly when an edit breaks that.
 */
module ProductModeration {
  import opened Wrappers
  import opened ProductEdit
  import opened ProductStock

  // ---------------------------------------------------------------------------
  // Moderation
  // ---------------------------------------------------------------------------

  /** The product is approved exactly while an admin's approval stands. */
  predicate Screened(c: Core) {
    c.doc.Some? ==> (c.doc.value.status.Approved? <==> c.cleared)
  }

  /**
   * The verdict of an edit is taken once, on the first read. It keeps the screening exactly
   * when it does not approve a product that is not approved when it lands.
   */
  lemma LandKeepsScreeningIff(c: Core, w: Work, at: nat)
    requires Screened(c) && w.Writing? && c.doc.Some?
    ensures Screened(Land(c, w, at)) <==> (w.status.Approved? ==> c.doc.value.status.Approved?)
  {
  }

  /** A new product starts screened unless a seller's product with a photo is created with approval switched off. */
  lemma CreationScreensIff(c: Core, ev: Event)
    requires Screened(c) && ev.New?
    ensures Screened(Created(c, ev)) <==> c.born || ev.admin || !ev.imaged || ev.review
  {
  }

  /** An edit that publishes lands on an approved product, and a seller's new product with a photo waits for approval. */
  predicate KeepsScreened(w: World, ev: Event) {
    && (ev.Write? && ev.e in w.edits && Lands(w.core, w.edits[ev.e]) ==>
          w.edits[ev.e].status.Approved? ==> w.core.doc.value.status.Approved?)
    && (ev.New? && !w.core.born ==> ev.admin || !ev.imaged || ev.review)
  }

  /** Exactly those two kinds of step can approve a product without an admin. */
  lemma StepScreenedIff(w: World, ev: Event)
    requires Screened(w.core)
    ensures Screened(Apply(w, ev).core) <==> KeepsScreened(w, ev)
  {
    if ev.New? {
      CreationScreensIff(w.core, ev);
    } else if ev.Write? && ev.e in w.edits && Lands(w.core, w.edits[ev.e]) {
      LandKeepsScreeningIff(w.core, w.edits[ev.e], ev.at);
    }
    hide Land, Landing, Opens, Verdict, Filled;
  }

  predicate Screening(w: World, evs: seq<Event>)
    decreases |evs|
  {
    evs != [] ==> KeepsScreened(w, evs[0]) && Screening(Apply(w, evs[0]), evs[1..])
  }

  predicate ScreenedThroughout(w: World, evs: seq<Event>)
    decreases |evs|
  {
    Screened(w.core) && (evs != [] ==> ScreenedThroughout(Apply(w, evs[0]), evs[1..]))
  }

  lemma {:induction false} ScreenedThroughoutIff(w: World, evs: seq<Event>)
    requires Screened(w.core)
    ensures ScreenedThroughout(w, evs) <==> Screening(w, evs)
    decreases |evs|
  {
    hide Apply, Screened, KeepsScreened;
    if evs != [] {
      StepScreenedIff(w, evs[0]);
      if Screened(Apply(w, evs[0]).core) { ScreenedThroughoutIff(Apply(w, evs[0]), evs[1..]); }
    }
  }

  lemma {:induction false} ScreenedAtEnd(w: World, evs: seq<Event>)
    requires ScreenedThroughout(w, evs)
    ensures Screened(Run(w, evs).core)
    decreases |evs|
  {
    hide Apply, Screened;
    if evs != [] { ScreenedAtEnd(Apply(w, evs[0]), evs[1..]); }
  }

  /** No product yet, and no edit of one. */
  function Nothing(): World {
    World(Core(None, map[], [], 0, false, false), map[])
  }

  /**
   * From before its creation a product is approved only while an admin approval stands,
   * throughout a run, exactly when no step of the run publishes it unapproved.
   */
  lemma ApprovedOnlyByAdmin(evs: seq<Event>)
    ensures ScreenedThroughout(Nothing(), evs) <==> Screening(Nothing(), evs)
    ensures Screening(Nothing(), evs) ==> Screened(Run(Nothing(), evs).core)
  {
    ScreenedThroughoutIff(Nothing(), evs);
    if Screening(Nothing(), evs) { ScreenedAtEnd(Nothing(), evs); }
  }

  ghost predicate FirstReadsDecide(w: World) {
    forall e :: e in w.edits && w.edits[e].Writing? && w.edits[e].attempt == 0 && w.edits[e].status.Approved?
      ==> w.edits[e].seen.status.Approved?
  }

  /** While stamps tell products apart an edit that lands on its first try publishes only an approved product: retries are what breaks it. */
  lemma FirstTryKeepsScreened(w: World, ev: Event)
    requires FirstReadsDecide(w) && StampsTell(w)
    ensures FirstReadsDecide(Apply(w, ev))
    ensures ev.Write? && ev.e in w.edits && w.edits[ev.e].Writing? && w.edits[ev.e].attempt == 0 ==> KeepsScreened(w, ev)
  {
    if ev.Write? && ev.e in w.edits && w.edits[ev.e].Writing? && w.edits[ev.e].attempt == 0 {
      assert w.edits[ev.e].status.Approved? ==> w.edits[ev.e].seen.status.Approved?;
    }
  }

  // ---------------------------------------------------------------------------
  // The retried edit
  // ---------------------------------------------------------------------------

  /**
   * An edit decided on an approved product, delayed by a stock movement and retried after
   * the admin rejected the product, approves it again with no admin approval standing.
   */
  lemma RetryRevivesApproval()
    ensures var w := Run(Five(Approved), [
                         Open(1, Edit(None, None, None, false)), Move(ById(7), -2, 11), Write(1, 12),
                         Reject(13), Reread(1), Write(1, 14)]);
      && StampsTell(Five(Approved)) && Screened(Five(Approved).core)
      && w.edits[1].Landed?
      && w.core.doc.Some? && w.core.doc.value.status == Approved
      && !w.core.cleared
  {
    hide Run;
    FiveIsSound(Approved);
    var early := [Open(1, Edit(None, None, None, false)), Move(ById(7), -2, 11), Write(1, 12)];
    var late := [Reject(13), Reread(1), Write(1, 14)];
    assert early + late == [early[0], early[1], early[2], late[0], late[1], late[2]];
    RunConcat(Five(Approved), early, late);
    SaleDelaysEdit();
    var w3 := Run(Five(Approved), early);
    RunThree(w3, Reject(13), Reread(1), Write(1, 14));
  }

  lemma SaleDelaysEdit()
    ensures var w := Run(Five(Approved), [Open(1, Edit(None, None, None, false)), Move(ById(7), -2, 11), Write(1, 12)]);
      && w.core.doc.Some?
      && 1 in w.edits && w.edits[1] == Missed(Edit(None, None, None, false), Approved, 0)
  {
  }
}
