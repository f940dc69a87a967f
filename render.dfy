/** The snprintf loops of est_init_main that render a list of numbers as text. */
module Render {
  import opened Scanner

  /**
   * The capped snprintf loops and the uncapped one of est_init_main: a list
   * rendered as "%d%s", with a space after every number but the last; the
   * capped loops stop once the text reaches PHC_MAXLEN characters.
   */
  method RenderList(vs: seq<nat>, capped: bool) returns (text: string)
    ensures !capped ==> text == JoinDecimal(vs)
    ensures capped ==> text == CappedFrom(vs, 0)
  {
    text := "";
    var i := 0;
    ghost var goal := CappedFrom(vs, 0);
    while i < |vs| && (!capped || |text| < PhcMaxLen)
      invariant 0 <= i <= |vs|
      invariant text == Rendered(vs, i)
      invariant capped ==> CappedFrom(vs, i) == goal
    {
      var piece := Decimal(vs[i]) + (if i < |vs| - 1 then " " else "");
      RenderRound(vs, i, capped, goal, text);
      text := text + piece;
      i := i + 1;
    }
    RenderedEnd(vs, i, capped);
  }
}
