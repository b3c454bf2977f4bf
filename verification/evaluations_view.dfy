/**
 * The evaluations view: a list of survey campaigns that the manager can create,
 * remove, and whose adhesion counter (responses received out of a target total)
 * can be stepped up and down, with a status that follows the counter.
 */
module EvaluationsView {
  import opened Common
  import Seqs

  datatype Campaign = Campaign(id: string, name: string, date: string, status: string, responses: int, total: int, color: string)

  const InProgress := "Em curso"
  const Done := "Concluído"
  const Archived := "Arquivado"

  /** The target total the creation form starts with. */
  const DefaultTotal := 30

  /** The campaigns shown when nothing has been saved yet. */
  const InitialCampaigns := [
    Campaign("c1", "Check-in de Acompanhamento Crítico", "Hoje, 09:00", InProgress, 12, 12, "blue"),
    Campaign("c2", "Clima Organizacional - Janeiro", "10 Jan, 2026", Done, 48, 50, "emerald"),
    Campaign("c3", "Burnout Trimestral (TI)", "01 Dez, 2025", Archived, 15, 15, "slate")
  ]

  // ----- the list operations, as values -----

  /** `Math.max(0, Math.min(total, v))`. */
  function Clamp(v: int, total: int): (r: int)
    ensures 0 <= r && (r <= total || r == 0)
    ensures 0 <= v <= total ==> r == v
    ensures v < 0 || total <= 0 ==> r == 0
    ensures 0 <= total <= v ==> r == total
  {
    var m := if total < v then total else v;
    if m < 0 then 0 else m
  }

  /** The campaign a creation adds: no responses yet, in progress. */
  function NewCampaign(id: string, name: string, total: int): Campaign {
    Campaign(id, name, "AGORA", InProgress, 0, total, "blue")
  }

  function Removed(cs: seq<Campaign>, id: string): seq<Campaign> {
    Seqs.Filter(cs, (c: Campaign) => c.id != id)
  }

  /** One campaign after `adjustAdhesion(id, amount)`. */
  function AdjustOne(c: Campaign, id: string, amount: int): Campaign {
    if c.id == id then
      var next := Clamp(c.responses + amount, c.total);
      c.(responses := next, status := if next == c.total then Done else InProgress)
    else c
  }

  function Adjusted(cs: seq<Campaign>, id: string, amount: int): seq<Campaign> {
    Seqs.Map(cs, (c: Campaign) => AdjustOne(c, id, amount))
  }

  /** Removing keeps, in their order, exactly the campaigns with another id. */
  lemma RemovedFacts(cs: seq<Campaign>, id: string)
    ensures Seqs.IsSubseq(Removed(cs, id), cs)
    ensures forall c :: c in Removed(cs, id) <==> c in cs && c.id != id
    ensures |Removed(cs, id)| == |cs| - Seqs.Count(cs, (c: Campaign) => c.id == id)
  {
    var p := (c: Campaign) => c.id != id;
    Seqs.FilterSubseq(cs, p);
    forall c | c in cs && c.id != id ensures c in Removed(cs, id) {
      Seqs.FilterKeeps(cs, p, c);
    }
    Seqs.CountIsFilterLength(cs, p);
    Seqs.CountDisjoint(cs, p, (c: Campaign) => c.id == id, (c: Campaign) => true);
    Seqs.CountAll(cs, (c: Campaign) => true);
  }

  /**
   * Adjusting touches only the campaigns with that id: their counter is clamped into
   * [0, max(0, total)] and their status is "Concluído" exactly when the counter meets
   * the total; every other field, and every other campaign, is unchanged.
   */
  lemma AdjustedFacts(cs: seq<Campaign>, id: string, amount: int)
    ensures var r := Adjusted(cs, id, amount);
      |r| == |cs|
      && forall i :: 0 <= i < |cs| ==>
           (cs[i].id != id ==> r[i] == cs[i])
           && (cs[i].id == id ==>
                 r[i].responses == Clamp(cs[i].responses + amount, cs[i].total)
                 && 0 <= r[i].responses && (r[i].responses <= cs[i].total || r[i].responses == 0)
                 && (r[i].status == Done <==> r[i].responses == cs[i].total)
                 && (r[i].status != Done ==> r[i].status == InProgress)
                 && r[i].(responses := cs[i].responses, status := cs[i].status) == cs[i])
  {
  }

  /** Inside the target, a step up followed by a step down gives the counter back. */
  lemma {:induction false} StepUpThenDown(cs: seq<Campaign>, id: string)
    requires forall c :: c in cs && c.id == id ==> 0 <= c.responses < c.total
    ensures var r := Adjusted(Adjusted(cs, id, 1), id, -1);
      |r| == |cs|
      && forall i :: 0 <= i < |cs| ==> r[i].responses == cs[i].responses && r[i].id == cs[i].id
  {
    var up := Adjusted(cs, id, 1);
    var r := Adjusted(up, id, -1);
    forall i | 0 <= i < |cs| ensures r[i].responses == cs[i].responses && r[i].id == cs[i].id {
      assert cs[i] in cs;
      assert up[i] == AdjustOne(cs[i], id, 1);
      assert r[i] == AdjustOne(up[i], id, -1);
    }
  }

  /** A counter that already meets its total is not pushed past it. */
  lemma StepUpAtTarget(c: Campaign, amount: int)
    requires 0 <= c.total && c.responses == c.total && amount >= 0
    ensures AdjustOne(c, c.id, amount).responses == c.total
    ensures AdjustOne(c, c.id, amount).status == Done
  {
  }

  // ----- the view's state -----

  class CampaignBoard {
    var campaigns: seq<Campaign>
    var isNewCampaignOpen: bool
    var newName: string
    var newTotal: int
    var newDept: string

    /** The state before anything is restored: no campaigns, the creation form closed and blank. */
    constructor()
      ensures campaigns == [] && !isNewCampaignOpen
      ensures newName == "" && newTotal == DefaultTotal && newDept == "GERAL"
    {
      campaigns := [];
      isNewCampaignOpen := false;
      newName := "";
      newTotal := DefaultTotal;
      newDept := "GERAL";
    }

    /** Restoring at start: the saved list when there is one, otherwise the three initial campaigns. */
    method Restore(saved: Option<seq<Campaign>>)
      modifies this
      ensures campaigns == (if saved.Some? then saved.value else InitialCampaigns)
      ensures isNewCampaignOpen == old(isNewCampaignOpen) && newName == old(newName)
      ensures newTotal == old(newTotal) && newDept == old(newDept)
    {
      campaigns := if saved.Some? then saved.value else InitialCampaigns;
    }

    method OpenForm()
      modifies this
      ensures isNewCampaignOpen
      ensures campaigns == old(campaigns) && newName == old(newName)
      ensures newTotal == old(newTotal) && newDept == old(newDept)
    {
      isNewCampaignOpen := true;
    }

    /** Cancelling closes the form and keeps what was typed. */
    method CancelForm()
      modifies this
      ensures !isNewCampaignOpen
      ensures campaigns == old(campaigns) && newName == old(newName)
      ensures newTotal == old(newTotal) && newDept == old(newDept)
    {
      isNewCampaignOpen := false;
    }

    method SetName(name: string)
      modifies this
      ensures newName == name
      ensures campaigns == old(campaigns) && isNewCampaignOpen == old(isNewCampaignOpen)
      ensures newTotal == old(newTotal) && newDept == old(newDept)
    {
      newName := name;
    }

    /** The total field: the parsed integer, or 0 when the text does not parse or parses to 0. */
    method SetTotal(parsed: Option<int>)
      modifies this
      ensures newTotal == (if parsed.Some? then parsed.value else 0)
      ensures campaigns == old(campaigns) && isNewCampaignOpen == old(isNewCampaignOpen)
      ensures newName == old(newName) && newDept == old(newDept)
    {
      newTotal := if parsed.Some? then parsed.value else 0;
    }

    /**
     * `handleCreateCampaign`, with the random id passed in: a blank name changes
     * nothing; otherwise the new campaign goes first, the others follow in their order,
     * and the form closes and resets.
     */
    method Create(id: string)
      modifies this
      ensures old(newName) == "" ==>
        campaigns == old(campaigns) && isNewCampaignOpen == old(isNewCampaignOpen)
        && newName == old(newName) && newTotal == old(newTotal)
      ensures old(newName) != "" ==>
        campaigns == [NewCampaign(id, old(newName), old(newTotal))] + old(campaigns)
        && |campaigns| == |old(campaigns)| + 1
        && campaigns[0].responses == 0 && campaigns[0].status == InProgress
        && !isNewCampaignOpen && newName == "" && newTotal == DefaultTotal
      ensures newDept == old(newDept)
    {
      if newName == "" {
        return;
      }
      campaigns := [NewCampaign(id, newName, newTotal)] + campaigns;
      isNewCampaignOpen := false;
      newName := "";
      newTotal := DefaultTotal;
    }

    /** `removeCampaign`: the campaigns with that id go, the rest keep their order. */
    method Remove(id: string)
      modifies this
      ensures campaigns == Removed(old(campaigns), id)
      ensures forall c :: c in campaigns <==> c in old(campaigns) && c.id != id
      ensures isNewCampaignOpen == old(isNewCampaignOpen) && newName == old(newName)
      ensures newTotal == old(newTotal) && newDept == old(newDept)
    {
      RemovedFacts(campaigns, id);
      campaigns := Removed(campaigns, id);
    }

    /** `adjustAdhesion`: the counter of the campaigns with that id moves by `amount`, clamped. */
    method AdjustAdhesion(id: string, amount: int)
      modifies this
      ensures campaigns == Adjusted(old(campaigns), id, amount)
      ensures |campaigns| == |old(campaigns)|
      ensures forall i :: 0 <= i < |campaigns| && campaigns[i].id == id ==>
        0 <= campaigns[i].responses && (campaigns[i].responses <= campaigns[i].total || campaigns[i].responses == 0)
        && (campaigns[i].status == Done <==> campaigns[i].responses == campaigns[i].total)
      ensures isNewCampaignOpen == old(isNewCampaignOpen) && newName == old(newName)
      ensures newTotal == old(newTotal) && newDept == old(newDept)
    {
      AdjustedFacts(campaigns, id, amount);
      campaigns := Adjusted(campaigns, id, amount);
    }
  }
}
