/** The request validation of the generate, improve and export endpoints and the template
    listing. A JSON request body is a map from field names to strings; a field that is absent
    is a missing key. */
module Endpoints {
  import opened Wrappers
  import opened Text
  import opened AppConfig
  import opened Generator

  /** `data.get(key)`. */
  function Lookup(data: map<string, string>, key: string): (v: Option<string>)
    ensures v.Some? <==> key in data
    ensures v.Some? ==> v.value == data[key]
  {
    if key in data then Some(data[key]) else None
  }

  /** `data.get(key, default)`. */
  function GetOr(data: map<string, string>, key: string, default: string): (v: string)
    ensures key in data ==> v == data[key]
    ensures key !in data ==> v == default
  {
    if key in data then data[key] else default
  }

  /** The request built from the body: the optional fields stay None when absent, the level
      defaults to "mid" and the tone to "professional". */
  function RequestFrom(data: map<string, string>): ResumeRequest
  {
    ResumeRequest(
      GetOr(data, "role", ""),
      Lookup(data, "company"),
      Lookup(data, "keywords"),
      GetOr(data, "experience_level", "mid"),
      Lookup(data, "industry"),
      GetOr(data, "tone", "professional"))
  }

  /** generate_content: a missing or empty role is refused with 400; otherwise the router
      answers for the request built from the body. */
  function GenerateContent(data: map<string, string>, config: Config, reply: Option<ResumeContent>)
    : (r: Reply<ResumeContent>)
    ensures r.Failure? <==> !Given(Lookup(data, "role"))
    ensures r.Failure? ==> r.status == 400 && r.error == "Role is required"
    ensures r.Success? && UsesProvider(config, reply) ==> r.value == reply.value
    ensures r.Success? && !UsesProvider(config, reply) ==> r.value == MockContent(RequestFrom(data))
  {
    if !Given(Lookup(data, "role")) then Failure(400, "Role is required")
    else Success(Generate(config, RequestFrom(data), reply))
  }

  /** Whenever the fallback answers an accepted request, its summary names the requested role. */
  lemma FallbackNamesRole(data: map<string, string>, config: Config, reply: Option<ResumeContent>)
    requires "role" in data && data["role"] != ""
    requires !UsesProvider(config, reply)
    ensures GenerateContent(data, config, reply).Success?
    ensures Contains(GenerateContent(data, config, reply).value.summary, data["role"])
  {
    assert RequestFrom(data).role == data["role"];
  }

  /** A body without an experience level is answered as one asking for "mid". */
  lemma MissingLevelIsMid(data: map<string, string>, config: Config, reply: Option<ResumeContent>)
    requires "experience_level" !in data
    ensures GenerateContent(data, config, reply)
      == GenerateContent(data["experience_level" := "mid"], config, reply)
  {
    var data' := data["experience_level" := "mid"];
    assert Lookup(data', "role") == Lookup(data, "role");
    assert RequestFrom(data') == RequestFrom(data);
  }

  const EnhancedPrefix: string := "[Enhanced] "

  /** improve_content: a missing or empty text is refused with 400; otherwise the text comes
      back behind the "[Enhanced] " marker. The section field is read but unused. */
  function ImproveContent(data: map<string, string>): (r: Reply<string>)
    ensures r.Failure? <==> GetOr(data, "text", "") == ""
    ensures r.Failure? ==> r.status == 400 && r.error == "Text is required"
  {
    var text := GetOr(data, "text", "");
    if text == "" then Failure(400, "Text is required") else Success(EnhancedPrefix + text)
  }

  /** The improved text is the marker followed by the original, so the original can be
      recovered from it. */
  lemma ImprovedKeepsOriginal(data: map<string, string>)
    requires ImproveContent(data).Success?
    ensures EnhancedPrefix <= ImproveContent(data).value
    ensures ImproveContent(data).value[|EnhancedPrefix|..] == data["text"]
    ensures |ImproveContent(data).value| == |data["text"]| + 11
  {
  }

  /** The template names in the order the listing returns them, and the default one. */
  const TemplateNames: seq<string> := ["modern", "classic"]
  const DefaultTemplate: string := "modern"

  /** The template export_pdf renders: the requested one when it exists, "modern" when the field
      is absent or names no template. */
  function SelectTemplate(data: map<string, string>): (name: string)
    ensures name in TemplateNames
    ensures "template" in data && data["template"] in TemplateNames ==> name == data["template"]
    ensures !("template" in data && data["template"] in TemplateNames) ==> name == DefaultTemplate
  {
    var requested := GetOr(data, "template", DefaultTemplate);
    if requested in TemplateNames then requested else DefaultTemplate
  }

  /** get_templates: the template names and the default, which is one of them. */
  function TemplateListing(): (r: (seq<string>, string))
    ensures r.1 in r.0 && |r.0| == 2
    ensures forall i, j :: 0 <= i < j < |r.0| ==> r.0[i] != r.0[j]
  {
    (TemplateNames, DefaultTemplate)
  }

  /** The export and the listing agree: the listing names every template the export can
      render, and the export's fallback is the listed default. */
  lemma ListingCoversExport(data: map<string, string>)
    ensures SelectTemplate(data) in TemplateListing().0
    ensures SelectTemplate(map[]) == TemplateListing().1
  {
  }
}
