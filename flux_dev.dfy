/** generate_image of src/services/fal_service.py and of backend/main.py:
    the same argument dict and model choice, submitted through fal_client.
    The two differ only in the default of enable_safety_checker. The submit
    call and the handler's result are an oracle. */
module FluxDev {
  import opened Py
  import opened PyJson
  import opened FalArguments

  const FluxDevModel: string := "fal-ai/flux/dev"
  const FluxLoraModel: string := "fal-ai/flux-lora"

  /** The keyword defaults of src/services/fal_service.py. */
  const SrcDefaults: ImageOptions := ImageOptions("landscape_4_3", 28, 3.5, 1, true, "jpeg")

  /** The keyword defaults of backend/main.py: the safety checker is off. */
  const BackendDefaults: ImageOptions := ImageOptions("landscape_4_3", 28, 3.5, 1, false, "jpeg")

  /** The two files agree on every default except the safety checker. */
  lemma DefaultsDifferInSafetyOnly()
    ensures SrcDefaults.(enableSafetyChecker := false) == BackendDefaults
    ensures SrcDefaults.enableSafetyChecker && !BackendDefaults.enableSafetyChecker
  {
  }

  /** What a Python expression can bind modelName to here: a string, or a
      tuple of strings. */
  datatype ModelRef = ModelName(name: string) | ModelTuple(names: seq<string>)

  /** The model choice as written: `modelName = "fal-ai/flux/dev",` ends in
      a comma, so without loras the name is the one-element tuple
      ("fal-ai/flux/dev",); with loras it is reassigned to the string
      "fal-ai/flux-lora". */
  function ModelAsWritten(loras: Json): (m: ModelRef)
    ensures m.ModelName? <==> Truthy(loras)
  {
    if Truthy(loras) then ModelName(FluxLoraModel) else ModelTuple([FluxDevModel])
  }

  /** The model choice as intended: flux-lora with loras, flux/dev without. */
  function ModelFor(loras: Json): (name: string)
    ensures name == FluxLoraModel <==> Truthy(loras)
    ensures name == FluxDevModel <==> !Truthy(loras)
  {
    if Truthy(loras) then FluxLoraModel else FluxDevModel
  }

  /** The code as written agrees with the intended choice exactly when loras
      are given: without them submit receives a tuple, not a model name. */
  lemma AsWrittenDivergesWithoutLoras(loras: Json)
    ensures ModelAsWritten(loras) == ModelName(ModelFor(loras)) <==> Truthy(loras)
    ensures !Truthy(loras) ==> ModelAsWritten(loras) == ModelTuple([FluxDevModel])
  {
  }

  /** The default call (loras None) is the case that shows it. */
  lemma DefaultCallSubmitsTuple()
    ensures ModelAsWritten(JNull) == ModelTuple(["fal-ai/flux/dev"])
    ensures ModelFor(JNull) == "fal-ai/flux/dev"
  {
  }

  /** generate_image with the model name corrected to a string: the eight
      base entries with the caller's values, the seed when one is given,
      the loras when they are truthy (neither None nor empty), and the model
      that goes with them, handed to the submit-and-wait oracle. */
  method GenerateImage(submit: (string, map<ArgKey, Json>) -> Json,
                       prompt: string, options: ImageOptions, syncMode: bool, seed: Option<int>, loras: Json)
    returns (modelName: string, arguments: map<ArgKey, Json>, result: Json)
    ensures CarriesOptions(arguments, prompt, options, syncMode)
    ensures Seed in arguments <==> seed.Some?
    ensures seed.Some? ==> arguments[Seed] == JInt(seed.value)
    ensures Loras in arguments <==> Truthy(loras)
    ensures Loras in arguments ==> arguments[Loras] == loras
    ensures arguments.Keys <= BaseKeys + {Seed, Loras}
    ensures modelName == ModelFor(loras)
    ensures ModelName(modelName) == ModelAsWritten(loras) <==> Loras in arguments
    ensures result == submit(modelName, arguments)
  {
    arguments := BaseArguments(prompt, options, syncMode);
    modelName := FluxDevModel;
    if seed.Some? {
      arguments := arguments[Seed := JInt(seed.value)];
    }
    if Truthy(loras) {
      arguments := arguments[Loras := loras];
      modelName := FluxLoraModel;
    }
    result := submit(modelName, arguments);
  }
}
