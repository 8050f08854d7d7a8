/** The admin's seed batch page: a status filter and search over all
    batches, and the form that adds a batch with the next `SB-` id. */
module AdminBatches {
  import opened Wrappers
  import opened Models
  import opened Text
  import opened Seqs

  const IdPrefix := "SB-"

  predicate MatchesSearch(b: SeedBatch, q: string) {
    || ContainsIgnoringCase(b.species, q)
    || ContainsIgnoringCase(b.batchNumber, q)
    || ContainsIgnoringCase(b.collectorName, q)
  }

  predicate Shown(b: SeedBatch, q: string, f: StatusFilter<BatchStatus>) {
    Passes(f, b.status) && MatchesSearch(b, q)
  }

  /** `filteredBatches` */
  function FilteredBatches(batches: seq<SeedBatch>, q: string, f: StatusFilter<BatchStatus>): (r: seq<SeedBatch>)
    ensures forall b :: b in r <==> b in batches && (f.All? || b.status == f.status) && MatchesSearch(b, q)
    ensures IsSubsequence(r, batches)
  {
    FilterIsSubsequence(batches, (b: SeedBatch) => Shown(b, q, f));
    Filter(batches, (b: SeedBatch) => Shown(b, q, f))
  }

  /** An empty search with "all" shows every batch. */
  lemma EmptySearchShowsAll(batches: seq<SeedBatch>)
    ensures FilteredBatches(batches, "", All) == batches
  {
    forall k | 0 <= k < |batches| ensures Shown(batches[k], "", All) {
      EmptyQueryMatches(batches[k].species);
    }
    FilterKeepsAll(batches, (b: SeedBatch) => Shown(b, "", All));
  }

  // ------------------------------------------------------------ the form

  /** `formData`; the number fields are kept as typed. */
  datatype BatchForm = BatchForm(batchNumber: string, species: string, quantity: string, unit: Unit,
                                 collectorName: string, collectionDate: string, motherTreeId: string,
                                 region: string, latitude: string, longitude: string, status: BatchStatus)

  const EmptyForm := BatchForm("", "", "", Kg, "", "", "", "", "", "", PendingBatch)

  /** What the browser asks of the form before it lets it submit: the
      required fields are filled in and the quantity is a number of at least 0. */
  predicate Submittable(f: BatchForm) {
    && f.batchNumber != "" && f.species != "" && f.collectorName != "" && f.collectionDate != ""
    && f.motherTreeId != "" && f.region != ""
    && ParseNumber(f.quantity).Some? && ParseNumber(f.quantity).value >= 0.0
  }

  /** `newBatch`, the `count` batches before it deciding its id. */
  function NewBatch(count: nat, f: BatchForm): (b: SeedBatch)
    requires ParseNumber(f.quantity).Some?
    ensures b.id == NumberedId(IdPrefix, count + 1)
    ensures b.quantity == ParseNumber(f.quantity).value
    ensures b.gpsCoordinates == Gps(ParseNumber(f.latitude).GetOr(0.0), ParseNumber(f.longitude).GetOr(0.0))
    ensures b.batchNumber == f.batchNumber && b.species == f.species && b.unit == f.unit
    ensures b.collectorName == f.collectorName && b.collectionDate == f.collectionDate
    ensures b.motherTreeId == f.motherTreeId && b.region == f.region && b.status == f.status
    ensures b.photoUrl.None? && b.germinationRate.None? && b.nurseryId.None?
  {
    SeedBatch(NumberedId(IdPrefix, count + 1), f.batchNumber, f.species, ParseNumber(f.quantity).value,
              f.unit, f.collectorName, f.collectionDate,
              Gps(NumberOrZero(f.latitude), NumberOrZero(f.longitude)),
              f.motherTreeId, f.region, f.status, None, None, None)
  }

  /** The batches, the form and whether the modal is open. */
  datatype Panel = Panel(batches: seq<SeedBatch>, form: BatchForm, open: bool)

  /** `handleSubmit`: append the new batch, then close and reset. */
  function SubmitStep(p: Panel): Panel {
    if !Submittable(p.form) then p
    else Panel(p.batches + [NewBatch(|p.batches|, p.form)], EmptyForm, false)
  }

  /** `handleCloseModal` */
  function CloseStep(p: Panel): (r: Panel)
    ensures r.batches == p.batches && r.form == EmptyForm && !r.open
  {
    Panel(p.batches, EmptyForm, false)
  }

  /** The ids of the list, in order. */
  function Ids(batches: seq<SeedBatch>): seq<string> {
    Map(batches, (x: SeedBatch) => x.id)
  }

  /** A submitted form is appended as one batch at the end, the batches
      before it unchanged, and the form is back to its defaults. */
  lemma SubmitAppends(p: Panel)
    requires Submittable(p.form)
    ensures var after := SubmitStep(p);
      && |after.batches| == |p.batches| + 1
      && after.batches[..|p.batches|] == p.batches
      && after.batches[|p.batches|] == NewBatch(|p.batches|, p.form)
      && after.form == EmptyForm && !after.open
  {
    assert SubmitStep(p).batches[..|p.batches|] == p.batches;
  }

  /** Coordinates that are empty or not numbers become 0. */
  lemma CoordinatesFallBack(count: nat, f: BatchForm)
    requires ParseNumber(f.quantity).Some?
    requires ParseNumber(f.latitude).None? && ParseNumber(f.longitude).None?
    ensures NewBatch(count, f).gpsCoordinates == Gps(0.0, 0.0)
  {
  }

  /** The ids stay `SB-001`, `SB-002`, ... as the bundled batches start, so
      the new id is one no batch has. */
  lemma SubmitKeepsIdsNumbered(p: Panel)
    requires Numbered(Ids(p.batches), IdPrefix) && Submittable(p.form)
    ensures NewBatch(|p.batches|, p.form).id !in Ids(p.batches)
    ensures Numbered(Ids(SubmitStep(p).batches), IdPrefix)
  {
    var b := NewBatch(|p.batches|, p.form);
    NextIdFresh(Ids(p.batches), IdPrefix);
    assert Ids(p.batches + [b]) == Ids(p.batches) + [b.id];
  }

  // ------------------------------------------------------------------ class

  class BatchesPage {
    var batches: seq<SeedBatch>
    var form: BatchForm
    var open: bool

    constructor (all: seq<SeedBatch>)
      ensures batches == all && form == EmptyForm && !open
    {
      batches := all;
      form := EmptyForm;
      open := false;
    }

    function State(): Panel
      reads this
    {
      Panel(batches, form, open)
    }

    /** `handleOpenModal` */
    method OpenModal()
      modifies this
      ensures State() == old(State()).(form := EmptyForm, open := true)
    {
      form := EmptyForm;
      open := true;
    }

    /** `handleCloseModal` */
    method CloseModal()
      modifies this
      ensures State() == CloseStep(old(State()))
    {
      open := false;
      form := EmptyForm;
    }

    /** `handleSubmit`, once the browser let the form through. */
    method Submit()
      modifies this
      ensures State() == SubmitStep(old(State()))
    {
      if !Submittable(form) {
        return;
      }
      var newBatch := NewBatch(|batches|, form);
      batches := batches + [newBatch];
      CloseModal();
    }
  }
}
