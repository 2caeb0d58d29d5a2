/** The two edits a lead card (components/dashboard/LeadCard.tsx) makes:
    a new status or new notes go into the card's own copy of the lead, and
    the stored collection is rewritten with every record carrying the
    card's id replaced by that copy. */
module LeadCard {
  import opened Leads

  /** `existingLeads.map(l => l.id === id ? updated : l)`. */
  function ReplaceById(stored: seq<Lead>, id: string, updated: Lead): (r: seq<Lead>)
    ensures |r| == |stored|
  {
    if stored == [] then []
    else [if stored[0].id == id then updated else stored[0]] + ReplaceById(stored[1..], id, updated)
  }

  /** Replacement touches exactly the records with the given id, position by
      position. */
  lemma {:induction false} ReplaceByIdPointwise(stored: seq<Lead>, id: string, updated: Lead)
    ensures forall i :: 0 <= i < |stored| && stored[i].id == id ==> ReplaceById(stored, id, updated)[i] == updated
    ensures forall i :: 0 <= i < |stored| && stored[i].id != id ==> ReplaceById(stored, id, updated)[i] == stored[i]
  {
    if stored != [] {
      ReplaceByIdPointwise(stored[1..], id, updated);
      var r := ReplaceById(stored, id, updated);
      assert forall i :: 1 <= i < |stored| ==> r[i] == ReplaceById(stored[1..], id, updated)[i - 1];
    }
  }

  /** No record with the id: the collection comes back unchanged, and no
      error is raised. */
  lemma MissingIdUnchanged(stored: seq<Lead>, id: string, updated: Lead)
    requires forall i :: 0 <= i < |stored| ==> stored[i].id != id
    ensures ReplaceById(stored, id, updated) == stored
  {
    ReplaceByIdPointwise(stored, id, updated);
  }

  /** The ids of the records, in order. */
  function IdsOf(leads: seq<Lead>): (r: seq<string>)
    ensures |r| == |leads| && forall i :: 0 <= i < |leads| ==> r[i] == leads[i].id
  {
    if leads == [] then [] else [leads[0].id] + IdsOf(leads[1..])
  }

  /** The replacement carries the same id, so the ids and their order are
      kept. */
  lemma ReplaceKeepsIds(stored: seq<Lead>, updated: Lead)
    ensures IdsOf(ReplaceById(stored, updated.id, updated)) == IdsOf(stored)
  {
    ReplaceByIdPointwise(stored, updated.id, updated);
  }

  /** Writing the same copy twice is writing it once. */
  lemma ReplaceIdempotent(stored: seq<Lead>, updated: Lead)
    ensures ReplaceById(ReplaceById(stored, updated.id, updated), updated.id, updated)
         == ReplaceById(stored, updated.id, updated)
  {
    var once := ReplaceById(stored, updated.id, updated);
    ReplaceByIdPointwise(stored, updated.id, updated);
    ReplaceByIdPointwise(once, updated.id, updated);
  }

  /** The card's copy of the lead and the stored collection after an edit. */
  datatype CardState = CardState(lead: Lead, stored: seq<Lead>)

  /** `handleStatusChange(newStatus)`: the copy takes the new status and
      replaces every stored record with its id. */
  function HandleStatusChange(card: Lead, stored: seq<Lead>, newStatus: Status): (r: CardState)
    ensures r.lead == card.(status := newStatus)
    ensures |r.stored| == |stored|
    ensures forall i :: 0 <= i < |stored| ==>
      r.stored[i] == if stored[i].id == card.id then card.(status := newStatus) else stored[i]
  {
    var updated := card.(status := newStatus);
    ReplaceByIdPointwise(stored, card.id, updated);
    CardState(updated, ReplaceById(stored, card.id, updated))
  }

  /** `handleNotesChange(newNotes)`: the notes are overwritten wholesale,
      with the same replacement by id. */
  function HandleNotesChange(card: Lead, stored: seq<Lead>, newNotes: string): (r: CardState)
    ensures r.lead == card.(notes := newNotes)
    ensures |r.stored| == |stored|
    ensures forall i :: 0 <= i < |stored| ==>
      r.stored[i] == if stored[i].id == card.id then card.(notes := newNotes) else stored[i]
  {
    var updated := card.(notes := newNotes);
    ReplaceByIdPointwise(stored, card.id, updated);
    CardState(updated, ReplaceById(stored, card.id, updated))
  }

  /** There is no transition table: from any status the selector reaches
      any status. */
  lemma AnyStatusReachable(card: Lead, stored: seq<Lead>, target: Status)
    ensures HandleStatusChange(card, stored, target).lead.status == target
    ensures forall i :: 0 <= i < |stored| && stored[i].id == card.id ==>
      HandleStatusChange(card, stored, target).stored[i].status == target
  {
  }

  /** A status change alters nothing of the card's copy but the status, and
      a notes change nothing but the notes. */
  lemma EditsTouchOneField(card: Lead, stored: seq<Lead>, s: Status, notes: string)
    ensures var l := HandleStatusChange(card, stored, s).lead;
      l.id == card.id && l.company == card.company && l.notes == card.notes
      && l.relevanceScore == card.relevanceScore && l == card.(status := l.status)
    ensures var l := HandleNotesChange(card, stored, notes).lead;
      l.id == card.id && l.status == card.status && l == card.(notes := l.notes)
  {
  }
}
