/** The request and response bodies of schemas.py. */
module Schemas {
  import opened Wrappers

  /** `Field(min_length=1, max_length=8192)` on `GenerateRequest.prompt`;
      pydantic counts code points, as Dafny's `|s|` does. */
  const MinPromptLength: nat := 1
  const MaxPromptLength: nat := 8192

  /** A request body that passed validation. */
  datatype GenerateRequest = GenerateRequest(prompt: string)

  /** pydantic's `string_too_short` and `string_too_long` errors. */
  datatype ValidationError = PromptTooShort | PromptTooLong

  /** Validation of the `prompt` field: too short and too long are rejected,
      anything else reaches the handler unchanged. */
  function ValidateRequest(prompt: string): (r: Result<GenerateRequest, ValidationError>)
    ensures r.Success? <==> MinPromptLength <= |prompt| <= MaxPromptLength
    ensures r.Success? ==> r.value.prompt == prompt
    ensures |prompt| < MinPromptLength ==> r == Failure(PromptTooShort)
    ensures |prompt| > MaxPromptLength ==> r == Failure(PromptTooLong)
  {
    if |prompt| < MinPromptLength then Failure(PromptTooShort)
    else if |prompt| > MaxPromptLength then Failure(PromptTooLong)
    else Success(GenerateRequest(prompt))
  }

  /** `GenerateResponse`: the body `/generate` answers with. */
  datatype GenerateResponse = GenerateResponse(response: string)
}
