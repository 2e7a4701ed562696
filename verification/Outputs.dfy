/**
 * The sinks that curves and paths write to: a string output that
 * accumulates text under fixed output settings, and a drawing context
 * that records the commands issued to it.
 */
module Outputs {

  /** Output settings; `Standard` is the one a string output gets when none is given. */
  datatype OutputSettings = Standard | Custom(pretty: bool, styled: bool)

  /** `Unicode.stringOutput(settings)`: text written so far, in order. */
  class StringOutput {
    var text: string
    const settings: OutputSettings

    constructor (settings: OutputSettings)
      ensures text == [] && this.settings == settings
    {
      text := [];
      this.settings := settings;
    }

    /** `write(s)`: appends `s`. */
    method Write(s: string)
      modifies this
      ensures text == old(text) + s
    {
      text := text + s;
    }
  }

  /** A drawing context; `C` stands for the commands it accepts (move, line, curve, close). */
  class DrawContext<C> {
    var commands: seq<C>

    constructor ()
      ensures commands == []
    {
      commands := [];
    }

    /** Issues `cs`, in order. */
    method Issue(cs: seq<C>)
      modifies this
      ensures commands == old(commands) + cs
    {
      commands := commands + cs;
    }
  }
}
