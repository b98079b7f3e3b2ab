/** `SoraApiRequest`: the body posted to create a generation job. `model` and
    `nVariants` are constants of the class; the other four fields have setters. */
module SoraApiRequestModel {
  import opened Common

  /** The JSON body as sent: `model`, `prompt`, `width`, `height`, `n_seconds`, `n_variants`. */
  datatype RequestBody = RequestBody(
    model: string,
    prompt: Option<string>,
    width: Option<string>,
    height: Option<string>,
    nSeconds: Option<string>,
    nVariants: string)

  class SoraApiRequest {
    const model: string := "sora"
    var height: Option<string>
    var width: Option<string>
    var nSeconds: Option<string>
    const nVariants: string := "1"
    var prompt: Option<string>

    function Body(): RequestBody
      reads this
    {
      RequestBody(model, prompt, width, height, nSeconds, nVariants)
    }

    /** The no-argument constructor: only the two constants are set. */
    constructor ()
      ensures Body() == RequestBody("sora", None, None, None, None, "1")
    {
      height, width, nSeconds, prompt := None, None, None, None;
    }

    /** `SoraApiRequest(prompt, width, height, duration)`: the duration becomes `n_seconds`. */
    constructor Create(prompt: Option<string>, width: Option<string>, height: Option<string>, duration: Option<string>)
      ensures Body() == RequestBody("sora", prompt, width, height, duration, "1")
    {
      this.prompt, this.width, this.height, this.nSeconds := prompt, width, height, duration;
    }

    /** `getModel()`: the model name never varies. */
    method GetModel() returns (m: string)
      ensures m == "sora"
    {
      m := model;
    }

    /** `getNVariants()`: exactly one variant is always requested. */
    method GetNVariants() returns (n: string)
      ensures n == "1"
    {
      n := nVariants;
    }

    method SetHeight(height: Option<string>)
      modifies this
      ensures Body() == old(Body()).(height := height)
    {
      this.height := height;
    }

    method SetWidth(width: Option<string>)
      modifies this
      ensures Body() == old(Body()).(width := width)
    {
      this.width := width;
    }

    method SetNSeconds(nSeconds: Option<string>)
      modifies this
      ensures Body() == old(Body()).(nSeconds := nSeconds)
    {
      this.nSeconds := nSeconds;
    }

    method SetPrompt(prompt: Option<string>)
      modifies this
      ensures Body() == old(Body()).(prompt := prompt)
    {
      this.prompt := prompt;
    }
  }
}
