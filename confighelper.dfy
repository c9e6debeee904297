/** The configuration helper's check: a setting counts as configured when
    it has a value other than the placeholder derived from its name, and
    the helper reports success only when every setting is configured. The
    `.env` file handling and the printed instructions are not modelled;
    the settings arrive as values. */
module ConfigHelper {
  import opened Common
  import opened JsString
  import Server

  /** One entry of `configs`: its display name and the variable's value
      (None when unset). */
  datatype Config = Config(name: string, value: Option<string>)

  /** What a name's character becomes in its placeholder: spaces turn
      into underscores and upper-case ASCII letters into lower-case. */
  function PlaceholderChar(c: char): char {
    if c == ' ' then '_' else if 'A' <= c <= 'Z' then (c as int + 32) as char else c
  }

  /** The middle of a setting's placeholder: the name lower-cased with
      every space turned into an underscore. */
  function PlaceholderName(name: string): (m: string)
    ensures |m| == |name|
    ensures forall i :: 0 <= i < |name| ==> m[i] == PlaceholderChar(name[i])
    ensures ' ' !in m && forall i :: 0 <= i < |m| ==> !('A' <= m[i] <= 'Z')
  {
    ReplaceSpaces(ToLowerAscii(name))
  }

  /** The placeholder for a setting: "your_", the name's placeholder
      spelling, then "_here". */
  function PlaceholderFor(name: string): (p: string)
    ensures |p| == |name| + 10
    ensures p[..5] == "your_" && p[|p| - 5..] == "_here"
    ensures forall i :: 0 <= i < |name| ==> p[5 + i] == PlaceholderChar(name[i])
  {
    "your_" + PlaceholderName(name) + "_here"
  }

  /** The spelling works word by word: the placeholder spelling of a
      concatenation is the concatenation of the spellings. */
  lemma PlaceholderNameAppend(a: string, b: string)
    ensures PlaceholderName(a + b) == PlaceholderName(a) + PlaceholderName(b)
  {
    var l, r := PlaceholderName(a + b), PlaceholderName(a) + PlaceholderName(b);
    forall i | 0 <= i < |l|
      ensures l[i] == r[i]
    {
      if i < |a| {
        assert (a + b)[i] == a[i];
      } else {
        assert (a + b)[i] == b[i - |a|];
      }
    }
  }

  /** A placeholder assembled from the spellings of two pieces of the
      name. */
  lemma PlaceholderForPieces(a: string, b: string, ma: string, mb: string, name: string, expected: string)
    requires PlaceholderName(a) == ma && PlaceholderName(b) == mb
    requires a + b == name && "your_" + ma + mb + "_here" == expected
    ensures PlaceholderFor(name) == expected
  {
    PlaceholderNameAppend(a, b);
  }

  /** The test of one setting: a non-empty value that is not the
      placeholder. */
  predicate IsConfigured(c: Config) {
    c.value.Some? && c.value.value != "" && c.value.value != PlaceholderFor(c.name)
  }

  /** The `forEach` over `configs`: `status[i]` is what the helper prints
      for setting `i`, and `allConfigured` holds exactly when every setting
      passed. */
  method CheckConfigs(configs: seq<Config>) returns (allConfigured: bool, status: seq<bool>)
    ensures |status| == |configs|
    ensures forall i :: 0 <= i < |configs| ==> status[i] == IsConfigured(configs[i])
    ensures allConfigured <==> forall i :: 0 <= i < |configs| ==> IsConfigured(configs[i])
  {
    allConfigured := true;
    status := [];
    for k := 0 to |configs|
      invariant |status| == k
      invariant forall i :: 0 <= i < k ==> status[i] == IsConfigured(configs[i])
      invariant allConfigured <==> forall i :: 0 <= i < k ==> IsConfigured(configs[i])
    {
      var config := configs[k];
      if config.value.Some? && config.value.value != "" && config.value.value != PlaceholderFor(config.name) {
        status := status + [true];
      } else {
        status := status + [false];
        allConfigured := false;
      }
    }
  }

  // ---------------------------------------------------------------
  // The template the helper writes
  // ---------------------------------------------------------------


  /** The three settings as the untouched template leaves them. */
  function TemplateConfigs(): seq<Config> {
    [ Config("Synthflow API Key", Some("your_synthflow_api_key_here")),
      Config("Synthflow Assistant ID", Some("your_assistant_id_here")),
      Config("Deepgram API Key", Some("your_deepgram_api_key_here")) ]
  }

  // The words of the template's names, spelled one at a time.

  lemma SynthflowSpelled()
    ensures PlaceholderName("Synthflow") == "synthflow"
  {
    var m := PlaceholderName("Synthflow");
    assert m[0] == 's' && m[1] == 'y' && m[2] == 'n' && m[3] == 't' && m[4] == 'h';
    assert m[5] == 'f' && m[6] == 'l' && m[7] == 'o' && m[8] == 'w';
  }

  lemma DeepgramSpelled()
    ensures PlaceholderName("Deepgram") == "deepgram"
  {
    var m := PlaceholderName("Deepgram");
    assert m[0] == 'd' && m[1] == 'e' && m[2] == 'e' && m[3] == 'p';
    assert m[4] == 'g' && m[5] == 'r' && m[6] == 'a' && m[7] == 'm';
  }

  lemma ApiKeySpelled()
    ensures PlaceholderName(" API Key") == "_api_key"
  {
    var m := PlaceholderName(" API Key");
    assert m[0] == '_' && m[1] == 'a' && m[2] == 'p' && m[3] == 'i';
    assert m[4] == '_' && m[5] == 'k' && m[6] == 'e' && m[7] == 'y';
  }

  lemma AssistantIdSpelled()
    ensures PlaceholderName(" Assistant ID") == "_assistant_id"
  {
    var m := PlaceholderName(" Assistant ID");
    assert m[0] == '_' && m[1] == 'a' && m[2] == 's' && m[3] == 's' && m[4] == 'i';
    assert m[5] == 's' && m[6] == 't' && m[7] == 'a' && m[8] == 'n' && m[9] == 't';
    assert m[10] == '_' && m[11] == 'i' && m[12] == 'd';
  }

  lemma SynthflowKeyPieces()
    ensures "Synthflow" + " API Key" == "Synthflow API Key"
    ensures "your_" + "synthflow" + "_api_key" + "_here" == "your_synthflow_api_key_here"
  {
  }

  /** The Synthflow key's derived placeholder is its template value. */
  lemma SynthflowKeyPlaceholder()
    ensures PlaceholderFor("Synthflow API Key") == "your_synthflow_api_key_here"
  {
    SynthflowSpelled();
    ApiKeySpelled();
    SynthflowKeyPieces();
    PlaceholderForPieces("Synthflow", " API Key", "synthflow", "_api_key", "Synthflow API Key", "your_synthflow_api_key_here");
  }

  lemma DeepgramKeyPieces()
    ensures "Deepgram" + " API Key" == "Deepgram API Key"
    ensures "your_" + "deepgram" + "_api_key" + "_here" == "your_deepgram_api_key_here"
  {
  }

  /** The Deepgram key's derived placeholder is its template value. */
  lemma DeepgramKeyPlaceholder()
    ensures PlaceholderFor("Deepgram API Key") == "your_deepgram_api_key_here"
  {
    DeepgramSpelled();
    ApiKeySpelled();
    DeepgramKeyPieces();
    PlaceholderForPieces("Deepgram", " API Key", "deepgram", "_api_key", "Deepgram API Key", "your_deepgram_api_key_here");
  }

  lemma AssistantIdPieces()
    ensures "Synthflow" + " Assistant ID" == "Synthflow Assistant ID"
    ensures "your_" + "synthflow" + "_assistant_id" + "_here" == "your_synthflow_assistant_id_here"
  {
  }

  /** The assistant id's derived placeholder names the agent kind, so it
      is not the template's "your_assistant_id_here". */
  lemma AssistantIdPlaceholder()
    ensures PlaceholderFor("Synthflow Assistant ID") == "your_synthflow_assistant_id_here"
  {
    SynthflowSpelled();
    AssistantIdSpelled();
    AssistantIdPieces();
    PlaceholderForPieces("Synthflow", " Assistant ID", "synthflow", "_assistant_id", "Synthflow Assistant ID", "your_synthflow_assistant_id_here");
  }

  /** On the untouched template the two API keys count as not configured
      while the assistant id, whose template value is not its derived
      placeholder, counts as configured. */
  lemma TemplateReport()
    ensures !IsConfigured(TemplateConfigs()[0])
    ensures IsConfigured(TemplateConfigs()[1])
    ensures !IsConfigured(TemplateConfigs()[2])
  {
    SynthflowKeyPlaceholder();
    DeepgramKeyPlaceholder();
    AssistantIdPlaceholder();
  }

  /** The template also sets PORT=3000 and NODE_ENV=development; any
      non-empty PORT makes the server treat itself as production, so a
      server started on the template serves its downstream WebSocket on
      the HTTP port instead of ws://localhost:8080, the address the helper
      prints. */
  lemma TemplateServerIsProduction()
    ensures Server.IsProduction(Server.Environment(Some("development"), None, None, Some("3000")))
  {
  }
}
