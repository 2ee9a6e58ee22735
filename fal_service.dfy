/** generate_image of services/fal_service.py: the product table, the
    argument dict and the request sent to fal.run. The HTTP session and the
    response are an oracle; FAL_KEY, read from the environment at import
    time, is a parameter. */
module FalService {
  import opened Py
  import opened PyJson
  import opened FalArguments

  /** One entry of PRODUCT_MODELS. `loras` is None (JNull) or a list. */
  datatype ProductConfig = ProductConfig(baseModel: string, loras: Json)

  const FluxLora: string := "fal-ai/flux-lora"

  const MyWoodCupLoraPath: string :=
    "https://storage.googleapis.com/fal-flux-lora/e9bc640224d24ceeb577d4c356ee5b22_lora.safetensors"

  const MyWoodCupLoras: Json := JArr([JObj([("path", JStr(MyWoodCupLoraPath)), ("scale", JInt(1))])])

  const PlainConfig: ProductConfig := ProductConfig(FluxLora, JNull)

  /** PRODUCT_MODELS. */
  const ProductModels: map<string, ProductConfig> := map[
    "Coca Cola" := PlainConfig,
    "Nike" := PlainConfig,
    "Cadbury" := PlainConfig,
    "MyWoodCup" := ProductConfig(FluxLora, MyWoodCupLoras)]

  /** `PRODUCT_MODELS.get(product_name, default)`: an exact-match lookup
      whose default is flux-lora without loras. */
  function ProductConfigFor(productName: string): (c: ProductConfig)
    ensures productName !in ProductModels ==> c == PlainConfig
  {
    if productName in ProductModels then ProductModels[productName] else PlainConfig
  }

  /** The four table entries. */
  lemma ProductTable()
    ensures ProductConfigFor("Coca Cola") == PlainConfig
    ensures ProductConfigFor("Nike") == PlainConfig
    ensures ProductConfigFor("Cadbury") == PlainConfig
    ensures ProductConfigFor("MyWoodCup").baseModel == FluxLora
    ensures var loras := ProductConfigFor("MyWoodCup").loras;
      loras.JArr? && |loras.items| == 1 && loras.items[0].JObj?
      && Lookup(loras.items[0].fields, "scale") == Some(JInt(1))
  {
    var fields := [("path", JStr(MyWoodCupLoraPath)), ("scale", JInt(1))];
    assert fields[..1] == [("path", JStr(MyWoodCupLoraPath))];
  }

  /** Every product, listed or not, is served by flux-lora. */
  lemma AlwaysFluxLora(productName: string)
    ensures ProductConfigFor(productName).baseModel == FluxLora
  {
  }

  /** Only MyWoodCup has loras; the lookup is exact, so a name that differs
      in case or spacing gets the default. */
  lemma LorasOnlyForMyWoodCup(productName: string)
    ensures Truthy(ProductConfigFor(productName).loras) <==> productName == "MyWoodCup"
  {
    if productName == "MyWoodCup" {
      assert ProductConfigFor(productName).loras == MyWoodCupLoras;
    } else {
      assert ProductConfigFor(productName) == PlainConfig;
    }
  }

  /** The POST request generate_image sends. */
  datatype Post = Post(url: string, authorization: string, arguments: map<ArgKey, Json>)

  /** The keyword defaults of generate_image. */
  const Defaults: ImageOptions := ImageOptions("landscape_4_3", 28, 3.5, 1, true, "jpeg")

  /** `f"Key {FAL_KEY}"`: a missing key is formatted as "None". */
  function Authorization(falKey: Option<string>): string {
    "Key " + (if falKey.Some? then falKey.value else "None")
  }

  /** generate_image: the base arguments with sync_mode True, the seed when
      one is given, the product's loras when it has any, posted to
      "https://fal.run/" + the product's base model; the decoded response
      (`post`) is returned. */
  method GenerateImage(post: Post -> Json, falKey: Option<string>, productName: string, prompt: string,
                       options: ImageOptions, seed: Option<int>)
    returns (request: Post, result: Json)
    ensures request.url == "https://fal.run/" + ProductConfigFor(productName).baseModel
    ensures request.authorization == Authorization(falKey)
    ensures CarriesOptions(request.arguments, prompt, options, true)
    ensures Seed in request.arguments <==> seed.Some?
    ensures seed.Some? ==> request.arguments[Seed] == JInt(seed.value)
    ensures Loras in request.arguments <==> Truthy(ProductConfigFor(productName).loras)
    ensures Loras in request.arguments ==> request.arguments[Loras] == ProductConfigFor(productName).loras
    ensures request.arguments.Keys <= BaseKeys + {Seed, Loras}
    ensures result == post(request)
  {
    var arguments := BaseArguments(prompt, options, true);
    var productConfig := ProductConfigFor(productName);
    var modelName := productConfig.baseModel;
    if seed.Some? {
      arguments := arguments[Seed := JInt(seed.value)];
    }
    if Truthy(productConfig.loras) {
      arguments := arguments[Loras := productConfig.loras];
    }
    request := Post("https://fal.run/" + modelName, Authorization(falKey), arguments);
    result := post(request);
  }
}
