/** The nursery's germination page: recording a germination rate for one of
    the nursery's batches, and the recorded, high and low performer lists
    behind its summary cards. */
module Germination {
  import opened Wrappers
  import opened Models
  import opened Text
  import opened Seqs
  import opened Web

  const SelectBatch := "Please select a batch"
  const InvalidRate := "Please enter a valid germination rate between 0 and 100"
  const HighRate := 80.0
  const LowRate := 60.0

  // ------------------------------------------------------ the partitions

  /** `b.germinationRate || 0` */
  function Rate(b: SeedBatch): real {
    b.germinationRate.GetOr(0.0)
  }

  /** `b.germinationRate` taken as a condition: a rate of 0 is falsy. */
  predicate Recorded(b: SeedBatch) {
    b.germinationRate.Some? && b.germinationRate.value != 0.0
  }

  predicate High(b: SeedBatch) {
    Recorded(b) && Rate(b) >= HighRate
  }

  predicate Low(b: SeedBatch) {
    Recorded(b) && Rate(b) < LowRate
  }

  /** `myBatches`: the batches with a recorded rate. */
  function RecordedBatches(batches: seq<SeedBatch>): (r: seq<SeedBatch>)
    ensures forall b :: b in r <==> b in batches && b.germinationRate.Some? && b.germinationRate.value != 0.0
  {
    Filter(batches, Recorded)
  }

  /** `highPerformers`: the recorded batches at 80 or more. */
  function HighPerformers(batches: seq<SeedBatch>): (r: seq<SeedBatch>)
    ensures forall b :: b in r <==> b in RecordedBatches(batches) && Rate(b) >= HighRate
  {
    Filter(RecordedBatches(batches), (b: SeedBatch) => Rate(b) >= HighRate)
  }

  /** `lowPerformers`: the recorded batches under 60. */
  function LowPerformers(batches: seq<SeedBatch>): (r: seq<SeedBatch>)
    ensures forall b :: b in r <==> b in RecordedBatches(batches) && Rate(b) < LowRate
  {
    Filter(RecordedBatches(batches), (b: SeedBatch) => Rate(b) < LowRate)
  }

  /** The high and low performers are the batches of the page that are
      high or low, in page order; no batch is both, so together they are at
      most the recorded batches. */
  lemma PerformersPartition(batches: seq<SeedBatch>)
    ensures HighPerformers(batches) == Filter(batches, High)
    ensures LowPerformers(batches) == Filter(batches, Low)
    ensures forall b :: !(b in HighPerformers(batches) && b in LowPerformers(batches))
    ensures |HighPerformers(batches)| + |LowPerformers(batches)| <= |RecordedBatches(batches)|
    ensures IsSubsequence(HighPerformers(batches), RecordedBatches(batches))
    ensures IsSubsequence(LowPerformers(batches), RecordedBatches(batches))
  {
    var rec := RecordedBatches(batches);
    FilterStronger(batches, High, Recorded);
    FilterStronger(batches, Low, Recorded);
    FilterSameOn(rec, High, (b: SeedBatch) => Rate(b) >= HighRate);
    FilterSameOn(rec, Low, (b: SeedBatch) => Rate(b) < LowRate);
    CountDisjoint(rec, (b: SeedBatch) => Rate(b) >= HighRate, (b: SeedBatch) => Rate(b) < LowRate);
    FilterIsSubsequence(rec, (b: SeedBatch) => Rate(b) >= HighRate);
    FilterIsSubsequence(rec, (b: SeedBatch) => Rate(b) < LowRate);
  }

  // -------------------------------------------------------- the handler

  /** The page's state: the nursery's batches, the batch being recorded, the
      rate as typed, and the alerts shown so far. */
  datatype Panel = Panel(batches: seq<SeedBatch>, selected: Option<SeedBatch>, rateText: string,
                         alerts: seq<string>)

  /** `parseFloat(rate)`, refused when it is `NaN` or outside 0..100. */
  function ValidRate(text: string): (r: Option<real>)
    ensures r.Some? <==> ParseNumber(text).Some? && 0.0 <= ParseNumber(text).value <= 100.0
    ensures r.Some? ==> r.value == ParseNumber(text).value
  {
    match ParseNumber(text)
    case None => None
    case Some(v) => if v < 0.0 || v > 100.0 then None else Some(v)
  }

  /** `{ ...b, germinationRate: rate }` on the batches with the id */
  function WithRate(batches: seq<SeedBatch>, id: string, rate: real): seq<SeedBatch> {
    seq(|batches|, i requires 0 <= i < |batches| =>
      if batches[i].id == id then batches[i].(germinationRate := Some(rate)) else batches[i])
  }

  /** `handleOpenModal(batch)`: the rate input is prefilled with
      `batch?.germinationRate?.toString() || ""`. `show` stands for
      `Number.prototype.toString`. */
  function OpenModalStep(p: Panel, b: Option<SeedBatch>, show: real -> string): Panel {
    var shown := if b.Some? && b.value.germinationRate.Some? then Some(show(b.value.germinationRate.value)) else None;
    p.(selected := b, rateText := OrElse(shown, ""))
  }

  /** The browser's check of the rate input, `required` with `min="0"` and
      `max="100"` (its `step` is not modelled): a number from 0 to 100. The
      batch picker keeps its value in a hidden input, which is not checked. */
  predicate RateSubmittable(text: string) {
    ParseNumber(text).Some? && 0.0 <= ParseNumber(text).value <= 100.0
  }

  /** `handleSubmitGermination` */
  function HandleSubmitStep(p: Panel): Panel {
    if p.selected.None? then p.(alerts := p.alerts + [SelectBatch])
    else match ValidRate(p.rateText)
      case None => p.(alerts := p.alerts + [InvalidRate])
      case Some(rate) =>
        p.(batches := WithRate(p.batches, p.selected.value.id, rate), selected := None, rateText := "")
  }

  /** A submit of the form: the browser's check, then the handler. */
  function SubmitStep(p: Panel): Panel {
    if RateSubmittable(p.rateText) then HandleSubmitStep(p) else p
  }

  /** Called on its own, the handler alerts on a rate that is not a number
      from 0 to 100 and changes nothing else. */
  lemma HandlerRejectsRate(p: Panel)
    requires p.selected.Some?
    requires ParseNumber(p.rateText).None? || ParseNumber(p.rateText).value < 0.0
             || ParseNumber(p.rateText).value > 100.0
    ensures HandleSubmitStep(p) == p.(alerts := p.alerts + [InvalidRate])
  {
  }

  /** The browser lets through exactly the rates the handler accepts, so of
      the handler's two alerts only the missing batch can be shown. */
  lemma OnlyBatchAlertPastTheBrowser(p: Panel)
    ensures RateSubmittable(p.rateText) <==> ValidRate(p.rateText).Some?
    ensures SubmitStep(p).alerts ==
            p.alerts + (if RateSubmittable(p.rateText) && p.selected.None? then [SelectBatch] else [])
  {
  }

  /** With no batch picked, a rate the browser lets through gets the page's
      alert. */
  lemma NoBatchAlerts(p: Panel)
    requires p.selected.None? && RateSubmittable(p.rateText)
    ensures SubmitStep(p) == p.(alerts := p.alerts + [SelectBatch])
  {
  }

  /** A rate that is empty or not a number from 0 to 100 is held back by
      the browser: nothing changes and no alert is shown. */
  lemma InvalidRateRejected(p: Panel)
    requires ParseNumber(p.rateText).None? || ParseNumber(p.rateText).value < 0.0
             || ParseNumber(p.rateText).value > 100.0
    ensures SubmitStep(p) == p
  {
  }

  /** A valid rate is set on the batches with the selected id only; nothing
      else of any batch changes, and the modal closes. */
  lemma RateRecorded(p: Panel)
    requires p.selected.Some? && ValidRate(p.rateText).Some?
    ensures var after, id, rate := SubmitStep(p), p.selected.value.id, ParseNumber(p.rateText).value;
      && |after.batches| == |p.batches|
      && (forall i :: 0 <= i < |p.batches| ==>
            after.batches[i] == if p.batches[i].id == id then p.batches[i].(germinationRate := Some(rate))
                                else p.batches[i])
      && after.selected.None? && after.rateText == "" && after.alerts == p.alerts
  {
  }

  /** A recorded rate of 0 still leaves the batch out of the recorded list. */
  lemma ZeroRateUnrecorded(p: Panel, i: nat)
    requires p.selected.Some? && ParseNumber(p.rateText) == Some(0.0)
    requires i < |p.batches| && p.batches[i].id == p.selected.value.id
    ensures SubmitStep(p).batches[i] !in RecordedBatches(SubmitStep(p).batches)
  {
  }

  /** A recorded positive rate of 80 or more puts the batch among the high performers. */
  lemma HighRateIsHigh(p: Panel, i: nat)
    requires p.selected.Some? && ValidRate(p.rateText).Some? && ParseNumber(p.rateText).value >= HighRate
    requires i < |p.batches| && p.batches[i].id == p.selected.value.id
    ensures SubmitStep(p).batches[i] in HighPerformers(SubmitStep(p).batches)
  {
    var after := SubmitStep(p).batches;
    assert after[i] in after;
  }

  /** Saving a batch's prefilled rate, when that text reads back as the
      rate, records the same rate again: no batch's rate changes. */
  lemma PrefilledRateResubmits(p: Panel, b: SeedBatch, show: real -> string)
    requires b.germinationRate.Some? && 0.0 <= b.germinationRate.value <= 100.0
    requires ParseNumber(show(b.germinationRate.value)) == b.germinationRate
    ensures var after := SubmitStep(OpenModalStep(p, Some(b), show));
      && after.batches == WithRate(p.batches, b.id, b.germinationRate.value)
      && after.alerts == p.alerts && after.selected.None?
  {
    ParseEmpty();
  }

  /** A batch without a rate opens with an empty rate, which the browser
      holds back. */
  lemma UnratedOpensEmpty(p: Panel, b: SeedBatch, show: real -> string)
    requires b.germinationRate.None?
    ensures OpenModalStep(p, Some(b), show).rateText == ""
    ensures SubmitStep(OpenModalStep(p, Some(b), show)) == OpenModalStep(p, Some(b), show)
  {
    ParseEmpty();
  }

  // ------------------------------------------------------------------ class

  class GerminationPage {
    const browser: Browser
    var batches: seq<SeedBatch>
    var selected: Option<SeedBatch>
    var rateText: string
    var submitting: bool

    constructor (browser: Browser, all: seq<SeedBatch>, nurseryId: string)
      ensures this.browser == browser
      ensures batches == Filter(all, (b: SeedBatch) => b.nurseryId == Some(nurseryId))
      ensures selected.None? && rateText == "" && !submitting
    {
      this.browser := browser;
      batches := Filter(all, (b: SeedBatch) => b.nurseryId == Some(nurseryId));
      selected := None;
      rateText := "";
      submitting := false;
    }

    function State(): Panel
      reads this, browser
    {
      Panel(batches, selected, rateText, browser.alerts)
    }

    /** `handleOpenModal(batch)` */
    method OpenModal(b: Option<SeedBatch>, show: real -> string)
      modifies this`selected, this`rateText
      ensures State() == OpenModalStep(old(State()), b, show)
      ensures b.Some? && b.value.germinationRate.Some? ==> rateText == OrElse(Some(show(b.value.germinationRate.value)), "")
      ensures (b.None? || b.value.germinationRate.None?) ==> rateText == ""
    {
      selected := b;
      var shown := if b.Some? && b.value.germinationRate.Some? then Some(show(b.value.germinationRate.value)) else None;
      rateText := OrElse(shown, "");
    }

    /** `handleCloseModal` */
    method CloseModal()
      modifies this`selected, this`rateText
      ensures State() == old(State()).(selected := None, rateText := "")
    {
      selected := None;
      rateText := "";
    }

    /** The batch picker of a modal opened without a batch: the first batch
        with the picked id, or none. */
    method ChooseBatch(id: string)
      modifies this`selected
      ensures State() == old(State()).(selected := Find(batches, (b: SeedBatch) => b.id == id))
    {
      selected := Find(batches, (b: SeedBatch) => b.id == id);
    }

    /** `handleSubmitGermination` */
    method HandleSubmitGermination()
      modifies this`batches, this`selected, this`rateText, this`submitting, browser`alerts
      ensures State() == HandleSubmitStep(old(State()))
      ensures old(selected).Some? ==> !submitting
    {
      if selected.None? {
        browser.Alert(SelectBatch);
        return;
      }
      submitting := true;
      var rate := ValidRate(rateText);
      if rate.None? {
        browser.Alert(InvalidRate);
        submitting := false;
        return;
      }
      batches := WithRate(batches, selected.value.id, rate.value);
      submitting := false;
      selected := None;
      rateText := "";
    }

    /** The form's submit: the browser's check, then the handler. */
    method SubmitGermination()
      modifies this`batches, this`selected, this`rateText, this`submitting, browser`alerts
      ensures State() == SubmitStep(old(State()))
    {
      if RateSubmittable(rateText) {
        HandleSubmitGermination();
      }
    }
  }
}
