/**
 * The "Payment Modes" pie chart card (Components/Cards/PaymentModes.tsx):
 * whether it shows the loader, the chart or "No data available", and the
 * labels and colours of the slices.
 */
module PaymentModes {
  import opened Js

  /** One payment mode's total for the day. */
  datatype Mode = Mode(name: string, value: int)

  const Colors: seq<string> := ["#9F7AEA", "#4C51BF", "#38B2AC", "#ED8936", "#FC8181", "#4299E1"]

  /** `paymentModes.every((mode) => mode.value === 0)` */
  predicate Every0(modes: seq<Mode>) {
    if modes == [] then true else modes[0].value == 0 && Every0(modes[1..])
  }

  lemma {:induction false} Every0Iff(modes: seq<Mode>)
    ensures Every0(modes) <==> forall i :: 0 <= i < |modes| ==> modes[i].value == 0
  {
    if modes != [] {
      Every0Iff(modes[1..]);
      assert forall i :: 1 <= i < |modes| ==> modes[i] == modes[1..][i - 1];
    }
  }

  /** `${name} : ${KES.format(value)}`, before the amount is formatted. */
  datatype LabelText = LabelText(name: string, amount: int)

  /** A slice as drawn: its label (none for a zero value) and its fill. */
  datatype Slice = Slice(name: string, value: int, caption: Option<LabelText>, color: string)

  /** The label callback: null for a zero value, otherwise the name and the amount to format. */
  function Label(m: Mode): (l: Option<LabelText>)
    ensures l.None? <==> m.value == 0
    ensures l.Some? ==> l.value == LabelText(m.name, m.value)
  {
    if m.value == 0 then None else Some(LabelText(m.name, m.value))
  }

  /** Slice `i` of the chart. */
  function SliceAt(modes: seq<Mode>, i: nat): (s: Slice)
    requires i < |modes|
    ensures s.name == modes[i].name && s.value == modes[i].value
    ensures s.color == Colors[i % |Colors|]
  {
    Slice(modes[i].name, modes[i].value, Label(modes[i]), Colors[i % |Colors|])
  }

  function Slices(modes: seq<Mode>): (ss: seq<Slice>)
    ensures |ss| == |modes| && forall i :: 0 <= i < |modes| ==> ss[i] == SliceAt(modes, i)
  {
    seq(|modes|, i requires 0 <= i < |modes| => SliceAt(modes, i))
  }

  datatype Card = Loader | Chart(slices: seq<Slice>) | NoData

  /** What the card shows. */
  function Show(isLoading: bool, paymentModes: Option<seq<Mode>>): (c: Card)
    ensures isLoading ==> c == Loader
    ensures c.Chart? ==> paymentModes.Some? && c.slices == Slices(paymentModes.value)
  {
    if isLoading then Loader
    else if paymentModes.Some? && |paymentModes.value| > 0 && !Every0(paymentModes.value) then
      Chart(Slices(paymentModes.value))
    else NoData
  }

  /** The chart is drawn exactly when, not loading, some mode has a non-zero total. */
  lemma ChartIff(isLoading: bool, paymentModes: Option<seq<Mode>>)
    ensures Show(isLoading, paymentModes).Chart? <==>
      !isLoading && paymentModes.Some? && exists i :: 0 <= i < |paymentModes.value| && paymentModes.value[i].value != 0
    ensures Show(isLoading, paymentModes).NoData? <==>
      !isLoading && (paymentModes.None? || forall i :: 0 <= i < |paymentModes.value| ==> paymentModes.value[i].value == 0)
  {
    if paymentModes.Some? {
      Every0Iff(paymentModes.value);
    }
  }

  /** Every slice with a non-zero total is labelled; colours repeat every six slices. */
  lemma SlicesLabelledAndCycled(modes: seq<Mode>, i: nat)
    requires i + 6 < |modes|
    ensures Slices(modes)[i].color == Slices(modes)[i + 6].color
    ensures Slices(modes)[i].caption.Some? <==> modes[i].value != 0
  {
    assert (i + 6) % 6 == i % 6;
  }
}
