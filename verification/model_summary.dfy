/**
 * `ModelSummary.getModelSummary(from:)` of Sources/ListModels/ModelSummary.swift:
 * an SDK foundation-model summary becomes the library's summary after an
 * ordered chain of presence checks. `BedrockModel(rawValue:)` is declared
 * outside the modelled files and is passed in as `lookup`.
 */
module ModelSummaries {
  import opened Base
  import opened Models

  datatype SdkLifecycleStatus = SdkActive | SdkLegacy | SdkUnknownStatus(name: string)

  datatype SdkModelLifecycle = SdkModelLifecycle(status: Option<SdkLifecycleStatus>)

  datatype SdkModelSummary = SdkModelSummary(
    modelName: Option<string>,
    providerName: Option<string>,
    modelId: Option<string>,
    modelArn: Option<string>,
    modelLifecycle: Option<SdkModelLifecycle>,
    responseStreamingSupported: Option<bool>)

  datatype ModelSummary = ModelSummary(
    modelName: string,
    providerName: string,
    modelId: string,
    modelArn: string,
    modelLifecycleStatus: string,
    responseStreamingSupported: bool,
    bedrockModel: Option<BedrockModel>)

  /** The lifecycle status, when the summary carries one. */
  function StatusOf(s: SdkModelSummary): Option<SdkLifecycleStatus> {
    if s.modelLifecycle.Some? then s.modelLifecycle.value.status else None
  }

  /** The guards of `getModelSummary`, in order; the first that fails names the missing field. */
  function FirstMissing(s: SdkModelSummary): Option<string> {
    if s.modelName.None? then Some("modelName")
    else if s.providerName.None? then Some("providerName")
    else if s.modelId.None? then Some("modelId")
    else if s.modelArn.None? then Some("modelArn")
    else if s.modelLifecycle.None? then Some("modelLifecycle")
    else if s.modelLifecycle.value.status.None? then Some("modelLifecycle.status")
    else None
  }

  function GetModelSummary(s: SdkModelSummary, lookup: string -> Option<BedrockModel>): (r: Result<ModelSummary>)
    ensures FirstMissing(s).Some? ==> r == Failure(NotFound(FirstMissing(s).value))
    ensures FirstMissing(s).None? && StatusOf(s).value.SdkUnknownStatus? ==> r == Failure(NotSupported("status"))
    ensures r.Success? <==> FirstMissing(s).None? && !StatusOf(s).value.SdkUnknownStatus?
    ensures r.Success? ==>
      && Some(r.value.modelName) == s.modelName
      && Some(r.value.providerName) == s.providerName
      && Some(r.value.modelId) == s.modelId
      && Some(r.value.modelArn) == s.modelArn
      && (r.value.modelLifecycleStatus == "active" <==> StatusOf(s) == Some(SdkActive))
      && (r.value.modelLifecycleStatus == "legacy" <==> StatusOf(s) == Some(SdkLegacy))
      && r.value.responseStreamingSupported == s.responseStreamingSupported.OrElse(Some(false)).value
      && r.value.bedrockModel == lookup(r.value.modelId)
  {
    match FirstMissing(s)
    case Some(field) => Failure(NotFound(field))
    case None =>
      var status :- match StatusOf(s).value
        case SdkActive => Success("active")
        case SdkLegacy => Success("legacy")
        case SdkUnknownStatus(_) => Failure(NotSupported("status"));
      var streaming := if s.responseStreamingSupported.Some? then s.responseStreamingSupported.value else false;
      Success(ModelSummary(
        s.modelName.value, s.providerName.value, s.modelId.value, s.modelArn.value,
        status, streaming, lookup(s.modelId.value)))
  }

  /** The SDK summary a library summary describes; the partner of `GetModelSummary`. */
  function ToSdk(m: ModelSummary): SdkModelSummary {
    SdkModelSummary(
      Some(m.modelName), Some(m.providerName), Some(m.modelId), Some(m.modelArn),
      Some(SdkModelLifecycle(Some(if m.modelLifecycleStatus == "active" then SdkActive else SdkLegacy))),
      Some(m.responseStreamingSupported))
  }

  /** A summary whose status is one of the two known ones, and whose model is the lookup's, comes back unchanged. */
  lemma SummaryRoundTrip(m: ModelSummary, lookup: string -> Option<BedrockModel>)
    requires m.modelLifecycleStatus == "active" || m.modelLifecycleStatus == "legacy"
    requires m.bedrockModel == lookup(m.modelId)
    ensures GetModelSummary(ToSdk(m), lookup) == Success(m)
  {
  }

  /** An id the lookup does not know still gives a summary, with no model attached. */
  lemma UnknownIdIsNotAnError(s: SdkModelSummary, lookup: string -> Option<BedrockModel>)
    requires FirstMissing(s).None? && !StatusOf(s).value.SdkUnknownStatus?
    requires lookup(s.modelId.value).None?
    ensures GetModelSummary(s, lookup).Success?
    ensures GetModelSummary(s, lookup).value.bedrockModel.None?
  {
  }
}
