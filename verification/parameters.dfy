/**
 * The parameter descriptors the family adapters read. `Parameter` and
 * `TextGenerationParameters` are declared outside the modelled files; only
 * the fields the adapters and the registry tables use appear here.
 * Floating-point knobs (temperature, topP) are reals that are only compared
 * and passed through.
 */
module Parameters {
  import opened Base

  /** `Parameter<T>`: optional bounds and default, plus whether the knob exists for the family. */
  datatype Parameter<T> = Parameter(minValue: Option<T>, maxValue: Option<T>, defaultValue: Option<T>, isSupported: bool)

  /** `Parameter(minValue:maxValue:defaultValue:)`: a supported knob with all three values. */
  function Bounded<T>(minValue: T, maxValue: T, defaultValue: T): Parameter<T> {
    Parameter(Some(minValue), Some(maxValue), Some(defaultValue), true)
  }

  /** `Parameter.notSupported()`: no bounds, no default. */
  function NotSupportedParameter<T>(): Parameter<T> {
    Parameter(None, None, None, false)
  }

  /** A knob the table leaves out: supported, but with no bounds and no default. */
  function Unconstrained<T>(): Parameter<T> {
    Parameter(None, None, None, true)
  }

  /** `StopSequenceParams`: how many stop sequences a family takes and which ones it sends by default. */
  datatype StopSequenceParams = StopSequenceParams(maxSequences: Option<int>, defaultValue: Option<seq<string>>, isSupported: bool)

  datatype TextGenerationParameters = TextGenerationParameters(
    temperature: Parameter<real>,
    maxTokens: Parameter<int>,
    topP: Parameter<real>,
    topK: Parameter<int>,
    stopSequences: StopSequenceParams,
    maxPromptSize: Option<int>)

  /** The caller's five optional overrides, in the order `getTextRequestBody` takes them. */
  datatype TextKnobs = TextKnobs(
    maxTokens: Option<int>,
    temperature: Option<real>,
    topP: Option<real>,
    topK: Option<int>,
    stopSequences: Option<seq<string>>)

  /** The converse feature flags a model may declare. */
  datatype ConverseFeature = TextGeneration | Vision | Document | ToolUse

  /** `ConverseParameters(textGenerationParameters:)`: the knobs the Converse API takes, copied from the text parameters. */
  datatype ConverseParameters = ConverseParameters(
    temperature: Parameter<real>,
    maxTokens: Parameter<int>,
    topP: Parameter<real>,
    stopSequences: StopSequenceParams,
    maxPromptSize: Option<int>)

  function ConverseParametersOf(p: TextGenerationParameters): ConverseParameters {
    ConverseParameters(p.temperature, p.maxTokens, p.topP, p.stopSequences, p.maxPromptSize)
  }

  /** `explicit ?? default`: the caller's value when given, else the family's default. */
  function Resolve<T>(explicit: Option<T>, fallback: Option<T>): (r: Option<T>)
    ensures explicit.Some? ==> r == explicit
    ensures explicit.None? ==> r == fallback
    ensures r.Some? <==> explicit.Some? || fallback.Some?
  {
    explicit.OrElse(fallback)
  }

  /** A declared default lies within whatever bounds are declared. */
  predicate DefaultWithinBounds(p: Parameter<real>) {
    p.defaultValue.Some? ==>
      (p.minValue.Some? ==> p.minValue.value <= p.defaultValue.value)
      && (p.maxValue.Some? ==> p.defaultValue.value <= p.maxValue.value)
  }

  predicate IntDefaultWithinBounds(p: Parameter<int>) {
    p.defaultValue.Some? ==>
      (p.minValue.Some? ==> p.minValue.value <= p.defaultValue.value)
      && (p.maxValue.Some? ==> p.defaultValue.value <= p.maxValue.value)
  }

  /** A knob that is not supported carries no bounds and no default. */
  predicate BareWhenUnsupported<T>(p: Parameter<T>) {
    !p.isSupported ==> p.minValue.None? && p.maxValue.None? && p.defaultValue.None?
  }

  /** Every declared default of the aggregate lies within its bounds. */
  predicate WellFormed(p: TextGenerationParameters) {
    DefaultWithinBounds(p.temperature) && IntDefaultWithinBounds(p.maxTokens)
    && DefaultWithinBounds(p.topP) && IntDefaultWithinBounds(p.topK)
    && BareWhenUnsupported(p.temperature) && BareWhenUnsupported(p.maxTokens)
    && BareWhenUnsupported(p.topP) && BareWhenUnsupported(p.topK)
  }
}
