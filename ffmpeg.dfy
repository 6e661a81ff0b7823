/** The fluent-ffmpeg command as the services build it. Like the library,
    the command keeps the inputs and outputs added so far together with
    the current (last) input and output, which the option calls modify:
    a new command starts with one output that has no target yet;
    `output(t)` gives the current output its target, or starts a new
    current output once it has one; input options and formats apply to the
    current input, output options and video filters to the current output.
    `View` is the invocation the command stands for: every input and every
    output in order. */
module Ffmpeg {
  import opened Wrappers
  import opened FilterText

  datatype Input = Input(source: string, format: Option<string>, options: seq<string>)

  datatype Output = Output(target: Option<string>, options: seq<string>, videoFilters: seq<TextFilter>)

  /** The inputs and outputs of an ffmpeg run, in order. */
  datatype Invocation = Invocation(inputs: seq<Input>, outputs: seq<Output>)

  datatype Command = Command(earlierInputs: seq<Input>, currentInput: Option<Input>,
                             earlierOutputs: seq<Output>, currentOutput: Output) {

    function View(): (v: Invocation)
      ensures |v.outputs| == |earlierOutputs| + 1 && v.outputs[|earlierOutputs|] == currentOutput
      ensures |v.inputs| == |earlierInputs| + (if currentInput.Some? then 1 else 0)
    {
      Invocation(earlierInputs + (if currentInput.Some? then [currentInput.value] else []),
                 earlierOutputs + [currentOutput])
    }

    /** `input(source)` / `addInput(source)`: the new input becomes the
        current one; the outputs are untouched. */
    function AddInput(source: string): (c: Command)
      ensures c.View().inputs == View().inputs + [Input(source, None, [])]
      ensures c.View().outputs == View().outputs
    {
      Command(View().inputs, Some(Input(source, None, [])), earlierOutputs, currentOutput)
    }

    /** `inputOptions(options)`: appended to the options of the current
        input. */
    function InputOptions(opts: seq<string>): (c: Command)
      requires currentInput.Some?
      ensures c.currentInput == Some(currentInput.value.(options := currentInput.value.options + opts))
      ensures c.View().outputs == View().outputs && c.earlierInputs == earlierInputs
    {
      this.(currentInput := Some(currentInput.value.(options := currentInput.value.options + opts)))
    }

    /** `inputFormat(format)`: the format of the current input. */
    function InputFormat(format: string): (c: Command)
      requires currentInput.Some?
      ensures c.currentInput == Some(currentInput.value.(format := Some(format)))
      ensures c.View().outputs == View().outputs && c.earlierInputs == earlierInputs
    {
      this.(currentInput := Some(currentInput.value.(format := Some(format))))
    }

    /** `output(target)`: fills in the target of a current output that has
        none, and otherwise starts a new current output. */
    function AddOutput(target: string): (c: Command)
      ensures c.View().inputs == View().inputs
      ensures c.currentOutput.target == Some(target)
      ensures currentOutput.target.None? ==> c.View().outputs == earlierOutputs + [currentOutput.(target := Some(target))]
      ensures currentOutput.target.Some? ==> c.View().outputs == View().outputs + [Output(Some(target), [], [])]
    {
      if currentOutput.target.None? then
        this.(currentOutput := currentOutput.(target := Some(target)))
      else
        this.(earlierOutputs := earlierOutputs + [currentOutput], currentOutput := Output(Some(target), [], []))
    }

    /** `outputOptions(options)`: appended to the options of the current
        output; every earlier output keeps its own. */
    function OutputOptions(opts: seq<string>): (c: Command)
      ensures c.currentOutput == currentOutput.(options := currentOutput.options + opts)
      ensures c.View().inputs == View().inputs && c.earlierOutputs == earlierOutputs
    {
      this.(currentOutput := currentOutput.(options := currentOutput.options + opts))
    }

    /** `videoFilters(filters)`: appended to the filters of the current
        output. */
    function VideoFilters(filters: seq<TextFilter>): (c: Command)
      ensures c.currentOutput == currentOutput.(videoFilters := currentOutput.videoFilters + filters)
      ensures c.View().inputs == View().inputs && c.earlierOutputs == earlierOutputs
    {
      this.(currentOutput := currentOutput.(videoFilters := currentOutput.videoFilters + filters))
    }
  }

  /** `ffmpeg()`: no input, and one output without a target. */
  function NewCommand(): (c: Command)
    ensures c.View() == Invocation([], [Output(None, [], [])])
  {
    Command([], None, [], Output(None, [], []))
  }

  /** Output options given before the first `output(target)` call belong to
      the output that target then names: setting them before or after the
      target gives the same command. */
  lemma OptionsBeforeTarget(c: Command, opts: seq<string>, target: string)
    requires c.currentOutput.target.None?
    ensures c.OutputOptions(opts).AddOutput(target) == c.AddOutput(target).OutputOptions(opts)
  {
  }

  /** Once the current output has a target, options given after a further
      `output(target)` call go to the new output only, and every earlier
      output keeps its own. */
  lemma {:induction false} OptionsAfterTarget(c: Command, opts: seq<string>, target: string)
    requires c.currentOutput.target.Some?
    ensures c.AddOutput(target).OutputOptions(opts).View().outputs == c.View().outputs + [Output(Some(target), opts, [])]
  {
    assert [] + opts == opts;
  }
}
