/** The admin's nursery page: the nursery network, each nursery with the
    bundled batches it holds, and the form that adds a nursery with the next
    `NUR-` id. */
module AdminNurseries {
  import opened Wrappers
  import opened Models
  import opened Text
  import opened Seqs

  const IdPrefix := "NUR-"

  /** The batches listed under a nursery: those with its id. */
  function NurseryBatches(all: seq<SeedBatch>, nurseryId: string): (r: seq<SeedBatch>)
    ensures forall b :: b in r <==> b in all && b.nurseryId == Some(nurseryId)
    ensures IsSubsequence(r, all)
  {
    FilterIsSubsequence(all, (b: SeedBatch) => b.nurseryId == Some(nurseryId));
    Filter(all, (b: SeedBatch) => b.nurseryId == Some(nurseryId))
  }

  /** Two different nurseries never list the same batch. */
  lemma NurseryBatchesDisjoint(all: seq<SeedBatch>, m: string, n: string, b: SeedBatch)
    requires m != n && b in NurseryBatches(all, m)
    ensures b !in NurseryBatches(all, n)
  {
  }

  // ------------------------------------------------------------ the form

  datatype NurseryForm = NurseryForm(name: string, location: string, operator: string, capacity: string,
                                     latitude: string, longitude: string)

  const EmptyForm := NurseryForm("", "", "", "", "", "")

  /** What the browser asks of the form before it lets it submit: the
      required fields are filled in and the capacity is a whole number of at
      least 0 (the input has `min="0"` and no `step`). */
  predicate Submittable(f: NurseryForm) {
    && f.name != "" && f.location != "" && f.operator != ""
    && ParseNumber(f.capacity).Some? && ParseNumber(f.capacity).value >= 0.0
    && Whole(ParseNumber(f.capacity).value)
  }

  /** `newNursery`, the `count` nurseries before it deciding its id. */
  function NewNursery(count: nat, f: NurseryForm): (n: NurseryRecord)
    ensures n.id == NumberedId(IdPrefix, count + 1)
    ensures n.name == f.name && n.location == f.location && n.operator == f.operator
    ensures n.capacity == ParseInt(f.capacity)
    ensures n.currentStock == 0 && n.activeBatches == 0
    ensures n.gpsCoordinates == Gps(ParseNumber(f.latitude).GetOr(0.0), ParseNumber(f.longitude).GetOr(0.0))
  {
    NurseryRecord(NumberedId(IdPrefix, count + 1), f.name, f.location,
                  Gps(NumberOrZero(f.latitude), NumberOrZero(f.longitude)),
                  ParseInt(f.capacity), 0, f.operator, 0)
  }

  datatype Panel = Panel(nurseries: seq<NurseryRecord>, form: NurseryForm, open: bool)

  /** `handleSubmit`: append the new nursery, then close and reset. */
  function SubmitStep(p: Panel): Panel {
    if !Submittable(p.form) then p
    else Panel(p.nurseries + [NewNursery(|p.nurseries|, p.form)], EmptyForm, false)
  }

  /** The ids of the list, in order. */
  function Ids(nurseries: seq<NurseryRecord>): seq<string> {
    Map(nurseries, (x: NurseryRecord) => x.id)
  }

  /** A submitted form is appended as one nursery at the end, the nurseries
      before it unchanged, and the form is back to its defaults. */
  lemma SubmitAppends(p: Panel)
    requires Submittable(p.form)
    ensures var after := SubmitStep(p);
      && |after.nurseries| == |p.nurseries| + 1
      && after.nurseries[..|p.nurseries|] == p.nurseries
      && after.nurseries[|p.nurseries|] == NewNursery(|p.nurseries|, p.form)
      && after.form == EmptyForm && !after.open
  {
    assert SubmitStep(p).nurseries[..|p.nurseries|] == p.nurseries;
  }

  /** Empty or unparsable coordinates become 0; the counters start at 0. */
  lemma NewNurseryDefaults(count: nat, f: NurseryForm)
    requires ParseNumber(f.latitude).None? && ParseNumber(f.longitude).None?
    ensures NewNursery(count, f).gpsCoordinates == Gps(0.0, 0.0)
  {
  }

  /** `parseInt` of a capacity the browser lets through is the number typed,
      when the text starts with a digit. */
  lemma CapacityAsTyped(count: nat, f: NurseryForm)
    requires Submittable(f) && LeadingDigit(f.capacity)
    ensures NewNursery(count, f).capacity.Some?
    ensures NewNursery(count, f).capacity.value >= 0
    ensures NewNursery(count, f).capacity.value as real == ParseNumber(f.capacity).value
  {
  }

  /** The browser also lets through a whole capacity written without a digit
      before the point, such as `.0`; `parseInt` makes it `NaN`. */
  lemma PointCapacityIsNaN(count: nat)
    ensures var f := NurseryForm("n", "l", "o", ".0", "", "");
      Submittable(f) && NewNursery(count, f).capacity == None
  {
    ParseIntNeedsLeadingDigit("0");
  }

  /** The ids stay `NUR-001`, `NUR-002`, ... as the bundled nurseries start,
      so the new id is one no nursery has. */
  lemma SubmitKeepsIdsNumbered(p: Panel)
    requires Numbered(Ids(p.nurseries), IdPrefix) && Submittable(p.form)
    ensures NewNursery(|p.nurseries|, p.form).id !in Ids(p.nurseries)
    ensures Numbered(Ids(SubmitStep(p).nurseries), IdPrefix)
  {
    var n := NewNursery(|p.nurseries|, p.form);
    assert SubmitStep(p).nurseries == p.nurseries + [n];
    NextIdFresh(Ids(p.nurseries), IdPrefix);
    assert Ids(p.nurseries + [n]) == Ids(p.nurseries) + [n.id];
  }

  // ------------------------------------------------------------------ class

  class NurseriesPage {
    var nurseries: seq<NurseryRecord>
    var form: NurseryForm
    var open: bool

    constructor (all: seq<NurseryRecord>)
      ensures nurseries == all && form == EmptyForm && !open
    {
      nurseries := all;
      form := EmptyForm;
      open := false;
    }

    function State(): Panel
      reads this
    {
      Panel(nurseries, form, open)
    }

    /** `handleOpenModal` */
    method OpenModal()
      modifies this
      ensures State() == old(State()).(form := EmptyForm, open := true)
    {
      form := EmptyForm;
      open := true;
    }

    /** `handleCloseModal` */
    method CloseModal()
      modifies this
      ensures State() == old(State()).(form := EmptyForm, open := false)
    {
      open := false;
      form := EmptyForm;
    }

    /** `handleSubmit`, once the browser let the form through. */
    method Submit()
      modifies this
      ensures State() == SubmitStep(old(State()))
    {
      if !Submittable(form) {
        return;
      }
      var newNursery := NewNursery(|nurseries|, form);
      nurseries := nurseries + [newNursery];
      open := false;
      form := EmptyForm;
    }
  }
}
