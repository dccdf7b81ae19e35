/** The common part of external I/O processors (`AbstractExternalIoProcessor`): which
    description classes a processor supports, how importer and exporter descriptions
    become input and output information, and how those become references. A concrete
    processor is given by its module name, its two description types and the results
    of its hook methods; the class hierarchy is given by an assignability relation. */
module ExternalIo {
  import opened Common

  /** `ImporterDescription.DataSize`. */
  datatype ImporterDataSize = ImporterUnknown | ImporterTiny | ImporterSmall | ImporterLarge

  /** `ExternalInputInfo.DataSize`. */
  datatype DataSize = Unknown | Tiny | Small | Large

  /** `convert`: absent sizes are unknown; the known sizes keep their names. */
  function Convert(value: Option<ImporterDataSize>): (r: DataSize)
    ensures r == Unknown <==> value.None? || value.value == ImporterUnknown
    ensures r != Unknown ==> ImporterSizeOf(r) == value.value
  {
    if value.None? then Unknown
    else match value.value
      case ImporterTiny => Tiny
      case ImporterSmall => Small
      case ImporterLarge => Large
      case ImporterUnknown => Unknown
  }

  /** The importer size of the same name. */
  function ImporterSizeOf(size: DataSize): ImporterDataSize
  {
    match size
    case Unknown => ImporterUnknown
    case Tiny => ImporterTiny
    case Small => ImporterSmall
    case Large => ImporterLarge
  }

  /** Every size is reached from the importer size of its name, only `UNKNOWN` from two
      inputs, and nothing known is made up. */
  lemma ConvertLaws(value: Option<ImporterDataSize>, size: DataSize)
    ensures Convert(Some(ImporterSizeOf(size))) == size
    ensures Convert(None) == Unknown
    ensures value.Some? && Convert(value) != Unknown ==> ImporterSizeOf(Convert(value)) == value.value
    ensures Convert(value) == Unknown <==> value.None? || value.value == ImporterUnknown
  {
  }

  /** The Java class hierarchy: `assignable(t, c)` is `t.isAssignableFrom(c)`. */
  datatype Hierarchy = Hierarchy(assignable: (string, string) -> bool)

  /** An importer or exporter description object: its class, its data model type, and
      (for importers) its data size, `None` for `null`. */
  datatype Description = Description(className: string, modelType: string, dataSize: Option<ImporterDataSize>)

  /** A value description, known by its textual representation. */
  datatype ValueDescription = ValueDescription(representation: string)

  datatype InputInfo = InputInfo(
    descriptionClass: string, moduleName: string, dataModelClass: string, dataSize: DataSize,
    properties: Option<ValueDescription>)

  datatype OutputInfo = OutputInfo(
    descriptionClass: string, moduleName: string, dataModelClass: string, properties: Option<ValueDescription>)

  datatype InputReference = InputReference(name: string, info: InputInfo, paths: set<string>)

  datatype OutputReference = OutputReference(name: string, info: OutputInfo, paths: seq<string>)

  /** A concrete processor: its module name, description types and hook methods. */
  datatype Processor = Processor(
    moduleName: string,
    inputDescriptionType: string,
    outputDescriptionType: string,
    inputProperties: (string, Description) -> Option<ValueDescription>,
    outputProperties: (string, Description) -> Option<ValueDescription>,
    inputPaths: (string, InputInfo) -> set<string>)

  /** `isSupported(context, descriptionClass)`. */
  predicate IsSupported(p: Processor, h: Hierarchy, descriptionClass: string)
  {
    h.assignable(p.inputDescriptionType, descriptionClass) || h.assignable(p.outputDescriptionType, descriptionClass)
  }

  /** `t.isInstance(description)`: a non-null object whose class is assignable to `t`. */
  predicate IsInstance(h: Hierarchy, t: string, description: Option<Description>)
  {
    description.Some? && h.assignable(t, description.value.className)
  }

  /** Every object `analyzeInput` or `analyzeOutput` accepts has a supported class. */
  lemma AnalyzedAreSupported(p: Processor, h: Hierarchy, description: Option<Description>)
    requires IsInstance(h, p.inputDescriptionType, description) || IsInstance(h, p.outputDescriptionType, description)
    ensures IsSupported(p, h, description.value.className)
  {
  }

  /** `analyzeInput(context, name, description)`. */
  function AnalyzeInput(p: Processor, h: Hierarchy, name: string, description: Option<Description>): (r: Result<InputInfo>)
    ensures r.Failure? <==> !IsInstance(h, p.inputDescriptionType, description)
    ensures r.Failure? ==> r.error == IllegalArgument("")
    ensures r.Success? ==>
      && r.value.descriptionClass == description.value.className
      && r.value.moduleName == p.moduleName
      && r.value.dataModelClass == description.value.modelType
      && r.value.dataSize == Convert(description.value.dataSize)
      && r.value.properties == p.inputProperties(name, description.value)
  {
    if !IsInstance(h, p.inputDescriptionType, description) then Failure(IllegalArgument(""))
    else
      var desc := description.value;
      Success(InputInfo(desc.className, p.moduleName, desc.modelType, Convert(desc.dataSize), p.inputProperties(name, desc)))
  }

  /** `analyzeOutput(context, name, description)`: as for inputs, without a data size. */
  function AnalyzeOutput(p: Processor, h: Hierarchy, name: string, description: Option<Description>): (r: Result<OutputInfo>)
    ensures r.Failure? <==> !IsInstance(h, p.outputDescriptionType, description)
    ensures r.Failure? ==> r.error == IllegalArgument("")
    ensures r.Success? ==>
      && r.value.descriptionClass == description.value.className
      && r.value.moduleName == p.moduleName
      && r.value.dataModelClass == description.value.modelType
      && r.value.properties == p.outputProperties(name, description.value)
  {
    if !IsInstance(h, p.outputDescriptionType, description) then Failure(IllegalArgument(""))
    else
      var desc := description.value;
      Success(OutputInfo(desc.className, p.moduleName, desc.modelType, p.outputProperties(name, desc)))
  }

  /** `resolveInput(context, name, info)`: the name and information, and the paths the
      processor computes for them. */
  function ResolveInput(p: Processor, name: string, info: InputInfo): (r: InputReference)
    ensures r.name == name && r.info == info && r.paths == p.inputPaths(name, info)
  {
    InputReference(name, info, p.inputPaths(name, info))
  }

  /** `resolveOutput(context, name, info, internalOutputPaths)`: everything passed through. */
  function ResolveOutput(name: string, info: OutputInfo, internalOutputPaths: seq<string>): (r: OutputReference)
    ensures r.name == name && r.info == info && r.paths == internalOutputPaths
  {
    OutputReference(name, info, internalOutputPaths)
  }

  /** An importer analysed and then resolved keeps its name, module and size. */
  lemma AnalyzeThenResolve(p: Processor, h: Hierarchy, name: string, description: Description)
    requires h.assignable(p.inputDescriptionType, description.className)
    ensures AnalyzeInput(p, h, name, Some(description)).Success?
    ensures var reference := ResolveInput(p, name, AnalyzeInput(p, h, name, Some(description)).value);
      && reference.name == name
      && reference.info.moduleName == p.moduleName
      && reference.info.dataSize == Convert(description.dataSize)
  {
  }
}
