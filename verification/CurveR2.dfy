/**
 * The behaviour every two-dimensional curve shares: a curve is drawn and
 * written as a move to its start point followed by the rest of its path.
 * What each concrete curve (linear, quadratic, cubic, elliptic) writes and
 * draws for those two parts is its own; it is given here as `CurveParts`.
 */
module Curves {
  import opened Results
  import opened Outputs

  /**
   * The parts a concrete curve of type `K` supplies: the text of its move
   * and of its rest under given output settings, and the drawing commands
   * (of type `C`) of its move and of its rest.
   */
  datatype CurveParts<-K, C> = CurveParts(
    writeMove: (K, OutputSettings) -> string,
    writeRest: (K, OutputSettings) -> string,
    drawMove: K -> seq<C>,
    drawRest: K -> seq<C>)

  /** The path text of a curve: its move, then its rest. */
  function PathText<K, C>(curve: K, parts: CurveParts<K, C>, settings: OutputSettings): string {
    parts.writeMove(curve, settings) + parts.writeRest(curve, settings)
  }

  /** `draw(context)`: the move's commands are issued before the rest's. */
  method Draw<K, C>(curve: K, parts: CurveParts<K, C>, context: DrawContext<C>)
    modifies context
    ensures context.commands == old(context.commands) + parts.drawMove(curve) + parts.drawRest(curve)
  {
    context.Issue(parts.drawMove(curve));
    context.Issue(parts.drawRest(curve));
  }

  /** `writePath(output)`: the move's text, then the rest's, under the output's settings. */
  method WritePath<K, C>(curve: K, parts: CurveParts<K, C>, output: StringOutput)
    modifies output
    ensures output.text == old(output.text) + PathText(curve, parts, output.settings)
  {
    output.Write(parts.writeMove(curve, output.settings));
    output.Write(parts.writeRest(curve, output.settings));
  }

  /** `toPathString(settings)`: the path text written into a fresh output, standard settings by default. */
  method ToPathString<K, C>(curve: K, parts: CurveParts<K, C>, settings: Option<OutputSettings>) returns (s: string)
    ensures s == PathText(curve, parts, settings.GetOr(Standard))
    ensures s[..|parts.writeMove(curve, settings.GetOr(Standard))|] == parts.writeMove(curve, settings.GetOr(Standard))
  {
    var output := new StringOutput(settings.GetOr(Standard));
    WritePath(curve, parts, output);
    s := output.text;
  }
}
