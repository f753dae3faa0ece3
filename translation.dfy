/**
 * The translator interface (GameHubApi.Providers/ITranslator.cs): `Translate(text, from, to)`.
 * The answer is a fixed function of the arguments; `calls` records every call in order.
 */
module Translation {
  import opened Wrappers
  import Errors

  datatype TranslateCall = TranslateCall(text: string, from: Option<string>, to: string)

  class Translator {
    const translate: (string, Option<string>, string) -> Result<string, Errors.Exception>
    ghost var calls: seq<TranslateCall>

    constructor(translate: (string, Option<string>, string) -> Result<string, Errors.Exception>)
      ensures this.translate == translate && calls == []
    {
      this.translate := translate;
      calls := [];
    }

    method Translate(text: string, from: Option<string>, to: string) returns (r: Result<string, Errors.Exception>)
      modifies this
      ensures r == translate(text, from, to)
      ensures calls == old(calls) + [TranslateCall(text, from, to)]
    {
      calls := calls + [TranslateCall(text, from, to)];
      r := translate(text, from, to);
    }
  }
}
