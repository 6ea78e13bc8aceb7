/**
 * The two handlers that only build a fixed-shape result: the
 * "greeting-template" prompt and the "greeting-resource" resource.
 */
module Handlers {
  import opened Protocol

  /** One entry of `GetPromptResult.messages`. */
  datatype PromptMessage = PromptMessage(role: string, content: Content)

  datatype PromptResult = PromptResult(messages: seq<PromptMessage>)

  /** One entry of `ReadResourceResult.contents`. */
  datatype ResourceContent = ResourceContent(uri: string, text: string)

  datatype ResourceResult = ResourceResult(contents: seq<ResourceContent>)

  /** What `server.resource(name, uri, { mimeType })` registers. */
  datatype ResourceRegistration = ResourceRegistration(name: string, uri: string, mimeType: string)

  const GreetingResource: ResourceRegistration :=
    ResourceRegistration("greeting-resource", "https://example.com/greetings/default", "text/plain")

  const GreetingOpening: string := "Please greet "
  const GreetingClosing: string := " in a friendly manner."

  /**
   * Reads the name back out of a greeting request text, or None when the
   * text does not have the greeting's shape.
   */
  function GreetedName(text: string): Option<string> {
    if |text| >= |GreetingOpening| + |GreetingClosing|
       && text[..|GreetingOpening|] == GreetingOpening
       && text[|text| - |GreetingClosing|..] == GreetingClosing
    then Some(text[|GreetingOpening|..|text| - |GreetingClosing|])
    else None
  }

  /**
   * The prompt handler: one user message whose text asks for a friendly
   * greeting of `name`, from which `name` can be read back.
   */
  function GreetingPrompt(name: string): (r: PromptResult)
    ensures |r.messages| == 1
    ensures r.messages[0].role == "user"
    ensures r.messages[0].content.Text?
    ensures GreetedName(r.messages[0].content.text) == Some(name)
  {
    var text := GreetingOpening + name + GreetingClosing;
    assert text[..|GreetingOpening|] == GreetingOpening;
    assert text[|text| - |GreetingClosing|..] == GreetingClosing;
    assert text[|GreetingOpening|..|text| - |GreetingClosing|] == name;
    PromptResult([PromptMessage("user", Text(text))])
  }

  /** Different names give different prompts. */
  lemma GreetingPromptInjective(a: string, b: string)
    ensures GreetingPrompt(a) == GreetingPrompt(b) ==> a == b
  {
  }

  /**
   * The resource handler. It takes no arguments, so every read yields the
   * same single item; its uri, written out again in the handler, is the one
   * registered for the resource.
   */
  function ReadGreeting(): (r: ResourceResult)
    ensures |r.contents| == 1
    ensures r.contents[0].uri == GreetingResource.uri
    ensures r.contents[0].text == "Hello, world!"
  {
    ResourceResult([ResourceContent("https://example.com/greetings/default", "Hello, world!")])
  }
}
