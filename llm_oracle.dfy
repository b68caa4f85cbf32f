/** The language-model client the agents call (`LLMClient.generate`). The model behind it
    is an oracle: the reply to a request is a fixed function of how many requests came
    before, the prompt and the system prompt. The client records every request. */
module LlmOracle {

  /** One `generate` call: the prompt, the system prompt and the sampling temperature. */
  datatype Request = Request(prompt: string, systemPrompt: string, temperature: real)

  class LlmClient {
    /** The reply to request number `n` (counting from 0) with the given prompts. */
    const reply: (nat, string, string) -> string
    /** The requests made so far, oldest first. */
    var requests: seq<Request>

    constructor (reply: (nat, string, string) -> string)
      ensures this.reply == reply && requests == []
    {
      this.reply := reply;
      requests := [];
    }

    /** `generate`: records the request and returns the oracle's reply to it. */
    method Generate(prompt: string, systemPrompt: string, temperature: real) returns (response: string)
      modifies this
      ensures requests == old(requests) + [Request(prompt, systemPrompt, temperature)]
      ensures response == reply(|old(requests)|, prompt, systemPrompt)
    {
      response := reply(|requests|, prompt, systemPrompt);
      requests := requests + [Request(prompt, systemPrompt, temperature)];
    }
  }
}
