/** The sizing rule of `ChatMessage.update_message_height`: once the label has
    laid out its text, the label is made tall enough for the text plus its
    padding, never shorter than a minimum, and the message row adds a fixed
    margin on top. Kivy's `dp(v)` (density-independent pixels) is modelled as
    `v` times a whole-number screen density, so every height is an integer
    number of device pixels. */
module Layout {

  /** Kivy's `dp(v)` at a screen density of `density` pixels per dp. */
  function Dp(v: nat, density: nat): nat {
    v * density
  }

  /** Smallest label height, in dp. */
  const MinLabel: nat := 60
  /** Vertical padding around the text inside the label, in dp. */
  const TextPadding: nat := 30
  /** What the message row adds to the label (header line and margins), in dp. */
  const RowExtra: nat := 30
  /** Height of a row before its first resize, in dp. */
  const InitialRow: nat := 80

  /** `max(dp(60), text_height + dp(30))`: the new label height for text of
      rendered height `textHeight`. */
  function LabelHeight(textHeight: nat, density: nat): (h: nat)
    ensures h >= Dp(MinLabel, density)
    ensures h >= textHeight + Dp(TextPadding, density)
    ensures h == Dp(MinLabel, density) || h == textHeight + Dp(TextPadding, density)
  {
    var padded := textHeight + Dp(TextPadding, density);
    if Dp(MinLabel, density) >= padded then Dp(MinLabel, density) else padded
  }

  /** `total_height + dp(30)`: the new height of the whole message row. */
  function RowHeight(textHeight: nat, density: nat): (h: nat)
    ensures h - LabelHeight(textHeight, density) == Dp(RowExtra, density)
    ensures h >= Dp(MinLabel + RowExtra, density)
  {
    LabelHeight(textHeight, density) + Dp(RowExtra, density)
  }

  /** The label height is the least height that meets both bounds: any height
      that is at least the minimum and fits the padded text is at least it. */
  lemma {:induction false} LabelHeightIsLeast(textHeight: nat, density: nat, h: nat)
    requires h >= Dp(MinLabel, density) && h >= textHeight + Dp(TextPadding, density)
    ensures LabelHeight(textHeight, density) <= h
  {
  }

  /** Taller text never gives a shorter label or row. */
  lemma {:induction false} HeightsMonotonic(t1: nat, t2: nat, density: nat)
    requires t1 <= t2
    ensures LabelHeight(t1, density) <= LabelHeight(t2, density)
    ensures RowHeight(t1, density) <= RowHeight(t2, density)
  {
  }

  /** Text no taller than `dp(30)` gets the minimum label, and the row is then
      `dp(90)`, which is more than the `dp(80)` it was created with. */
  lemma {:induction false} ShortTextGetsMinimum(textHeight: nat, density: nat)
    requires textHeight <= Dp(MinLabel - TextPadding, density)
    ensures LabelHeight(textHeight, density) == Dp(MinLabel, density)
    ensures RowHeight(textHeight, density) == Dp(MinLabel + RowExtra, density)
    ensures density > 0 ==> RowHeight(textHeight, density) > Dp(InitialRow, density)
  {
  }

  /** Text taller than `dp(30)` gets exactly its padding: the label grows one
      pixel per pixel of text. */
  lemma {:induction false} TallTextGetsPadding(textHeight: nat, density: nat)
    requires textHeight > Dp(MinLabel - TextPadding, density)
    ensures LabelHeight(textHeight, density) == textHeight + Dp(TextPadding, density)
  {
  }
}
