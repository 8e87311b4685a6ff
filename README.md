# ActiveAgent core, modelled in Dafny

ActiveAgent is a Rails framework for "agents": classes whose action methods build a
`Prompt` (instructions, a current `Message`, the conversation so far, the available
actions) and hand it to a generation provider (OpenAI, Anthropic, ...). The provider
turns the prompt into the remote API's parameters, calls the API and turns the reply back
into a `Message`, possibly with requested `Action`s (tool calls). A `Generation` is the
lazy handle an agent class hands out for one action call: it processes the agent on first
use, and it can be generated now or enqueued as a job.

This project models that core:

- Ruby values (`Values.Value`): nil, booleans, integers, floats as literals, strings,
  symbols, arrays, hashes, procs and other objects. It also models the ActiveSupport
  predicates `blank?`, `present?` and `presence`, and the ActiveModel `:string` cast.
  Hash keys, both Symbol and String keys, are Dafny `string`s.
- Raised exceptions become `Result` failures carrying a structured `Errors.Error`.
- The value objects `Message`, `Action` and `Response` are datatypes.
- The objects the core updates in place are classes with `modifies` frames:
  - `Prompt`, whose constructor runs the normalising steps;
  - the providers;
  - the `Generation` handle;
  - the agent class's class attributes and the agent instance;
  - the generation-method registry;
  - the module-level configuration;
  - the streaming accumulator.
- Remote clients, the JSON decoder, YAML loading, `String#underscore`/`camelize`,
  agent processing and agent-method evaluation are function parameters. Remote calls,
  JSON decoding, agent processing and the agent's `prompt` return a `Result`, so each of
  them may raise. Every contract holds whatever those parameters do, with the exceptions
  listed under "## Left out".

Both providers pass `action_requested:` to `Message.new`, and `Message` does not declare
that attribute. As written, no non-streaming reply therefore ever becomes a Message (see
"## Findings"). The corrected reply functions return the Message together with the
`action_requested` flag, in `Wire.Reply`.

## Model

| member | source | states |
|---|---|---|
| Wrappers.MapResult | lib/active_agent/generation_provider/anthropic_provider.rb:62-70 | mapping a raising block over a list succeeds iff every element succeeds; the results are kept in order, one per element; otherwise it fails with the first element's error |
| Access.HashIndex | lib/active_agent/generation_provider/anthropic_provider.rb:65 | `[]` on a Hash with a Symbol or String key never raises and yields the value or nil |
| Actions.New | lib/active_agent/action_prompt/action.rb:6-10 | id defaults to nil, name to "", params to {}; a key that is present wins even when its value is nil; agent_name is nil |
| Actions.IgnoresOtherKeys | lib/active_agent/action_prompt/action.rb:6-10 | two attribute hashes that agree on id, name and params give the same Action |
| Actions.ToValue | lib/active_agent/action_prompt/action.rb:6-10 | an Action stored as a value is truthy and present |
| Values.CastString | lib/active_agent/action_prompt/message.rb:11 | the `:string` cast keeps nil, keeps Strings, and turns a Symbol into its name |
| Messages.New | lib/active_agent/action_prompt/message.rb:11-21 | succeeds iff every key is declared and the cast role is valid; an unknown key raises UnknownAttribute, a bad role InvalidRole; each attribute is the given value (cast for content and role) or its default |
| Messages.NewWithoutAttributes | lib/active_agent/action_prompt/message.rb:11-14 | `Message.new` has content "", role "system", requested_actions [] and params {} |
| Messages.RoleAcceptedIff | lib/active_agent/action_prompt/message.rb:41-45 | a String or Symbol role is accepted iff its name is system, assistant or user |
| Messages.ToolAndFunctionRejected | lib/active_agent/action_prompt/message.rb:16 | the roles "tool" and "function" are rejected |
| Messages.InvalidRoleTextSpelledOut | lib/active_agent/action_prompt/message.rb:43 | the ArgumentError text lists the valid roles as "system, assistant, user" |
| Messages.AnyTruthy | lib/active_agent/action_prompt/message.rb:23-25 | `any?` holds iff some element is truthy |
| Messages.ActionsRequested | lib/active_agent/action_prompt/message.rb:23-25 | `actions_requested?` is `any?` over an Array, non-emptiness of a Hash, and NoMethod for other values |
| Messages.ActionsRequestedIffNonEmpty | lib/active_agent/action_prompt/message.rb:23-25 | over a list of Actions, `actions_requested?` holds iff the list is non-empty |
| Messages.ActionCall | lib/active_agent/action_prompt/message.rb:27-29 | `action_call?` is false for every Message |
| Messages.ToS | lib/active_agent/action_prompt/message.rb:31-33 | `to_s` is a String: the content, or "" for nil content |
| Messages.ToH | lib/active_agent/action_prompt/message.rb:35-37 | `to_h` has exactly the keys content and role, holding the Message's values |
| Messages.UserMessage | lib/active_agent/action_prompt/prompt.rb:50 | `Message.new(content:, role: :user)` always succeeds, with this Message |
| Messages.SystemMessage | lib/active_agent/action_prompt/prompt.rb:41 | `Message.new(content:, role: :system)` always succeeds, with this Message |
| Messages.AssistantMessage | lib/active_agent/generation_provider/anthropic_provider.rb:36 | `Message.new(content:, role: :assistant)` always succeeds, with this Message |
| Prompts.NormalizeMessagesShape | lib/active_agent/action_prompt/prompt.rb:48-52 | set_messages keeps the length and every Message; when any element is truthy, it turns each non-Message into a user Message, and otherwise it changes nothing |
| Prompts.InitialMessageCases | lib/active_agent/action_prompt/prompt.rb:17-22 | message defaults to an empty Message; a String becomes a user Message with that content; anything else is kept |
| Prompts.SlotToS | lib/active_agent/action_prompt/prompt.rb:25-27 | the `to_s` of a message slot is always a String |
| Prompts.Prompt.constructor | lib/active_agent/action_prompt/prompt.rb:11-22 | every attribute is the given one or its default, with instructions cast to a String, message set by set_message, and messages normalised with their length kept |
| Prompts.Prompt.ToS | lib/active_agent/action_prompt/prompt.rb:25-27 | `to_s` is a String: the current Message's `to_s`, or, for any other value held as the message, that value's `to_s` |
| Prompts.Prompt.ToH | lib/active_agent/action_prompt/prompt.rb:29-36 | `to_h` succeeds iff the message and every element of messages have `to_h`; it has exactly the keys actions, instructions, message and messages, with the messages' hashes in order; it always succeeds when all of them are Messages |
| Responses.New | lib/active_agent/generation_provider/response.rb:8-12 | keeps the prompt and raw response; the message is the one given, else the prompt's message |
| Wire.Temperature | lib/active_agent/generation_provider/open_ai_provider.rb:61 | the configured temperature when truthy, else 0.7 |
| Wire.ActionsValue | lib/active_agent/generation_provider/open_ai_provider.rb:104 | the requested actions are stored as a list of the Actions, one per action, in order |
| Wire.StreamRequested | lib/active_agent/generation_provider/open_ai_provider.rb:124 | a stream is attached iff `options[:stream]` or `config["stream"]` is truthy |
| Wire.AgentStream | lib/active_agent/generation_provider/open_ai_provider.rb:88 | the prepared stream response is returned iff `options[:stream]` is truthy |
| ProviderBase.PromptMessages | lib/active_agent/generation_provider/base.rb:28-43 | the instructions, the messages, then the current message come out in that order, each only when present; with none given, the result is [] |
| ProviderBase.Provider.constructor | lib/active_agent/generation_provider/base.rb:8-12 | keeps the config; no prompt yet |
| ProviderBase.Provider.Generate | lib/active_agent/generation_provider/base.rb:14-17 | records the prompt, then raises NotImplementedError |
| ProviderBase.Provider.PromptParameters | lib/active_agent/generation_provider/base.rb:21-43 | raises NoMethod on nil without a prompt; otherwise it returns exactly messages and temperature, with the configured or default temperature; messages holds the instructions' hash first, then each message's hash in order, then the current message's hash last, each only when present |
| OpenAIProvider.ModelName | lib/active_agent/generation_provider/open_ai_provider.rb:14 | the configured model when truthy, else "gpt-4o-mini" |
| OpenAIProvider.ProviderMessage | lib/active_agent/generation_provider/open_ai_provider.rb:70-85 | each of role, content, type and charset appears iff it is not nil; tool_call_id appears iff the action id is present; image_url (a url hash) appears iff the content type is "image_url"; no other key appears |
| OpenAIProvider.ProviderMessages | lib/active_agent/generation_provider/open_ai_provider.rb:70-85 | one provider message per message, in order |
| OpenAIProvider.PromptParameters | lib/active_agent/generation_provider/open_ai_provider.rb:61-68 | exactly model, messages, temperature and tools; the prompt's model overrides the provider's; tools is the actions when present and nil when blank |
| OpenAIProvider.ChatParametersStream | lib/active_agent/generation_provider/open_ai_provider.rb:123-126 | the stream proc is added iff streaming is requested; every other key is unchanged |
| OpenAIProvider.Skipped | lib/active_agent/generation_provider/open_ai_provider.rb:112 | a tool call is skipped iff its function is nil or its function name is blank |
| OpenAIProvider.Survivors | lib/active_agent/generation_provider/open_ai_provider.rb:111-120 | exactly the calls that are not skipped survive, and there are no more of them than calls |
| OpenAIProvider.SurvivorsAppend | lib/active_agent/generation_provider/open_ai_provider.rb:111-120 | `map ... compact` keeps order: the survivors of `a + b` are the survivors of `a` followed by those of `b` |
| OpenAIProvider.SurvivorsSingle | lib/active_agent/generation_provider/open_ai_provider.rb:112 | one call survives, as itself, iff it is not skipped |
| OpenAIProvider.Arguments | lib/active_agent/generation_provider/open_ai_provider.rb:113 | blank arguments give nil; a String is decoded as JSON |
| OpenAIProvider.ActionFor | lib/active_agent/generation_provider/open_ai_provider.rb:115-119 | the Action carries the call's id, its function name and its decoded arguments; it fails iff decoding fails |
| OpenAIProvider.HandleCalls | lib/active_agent/generation_provider/open_ai_provider.rb:111-120 | succeeds iff every surviving call's arguments decode; gives one Action per surviving call, in order, each with a present name |
| OpenAIProvider.HandleActions | lib/active_agent/generation_provider/open_ai_provider.rb:108-121 | nil or [] gives []; otherwise the Actions of the surviving calls |
| OpenAIProvider.Intern | lib/active_agent/generation_provider/open_ai_provider.rb:102 | a String role becomes its Symbol; any other value raises NoMethod |
| OpenAIProvider.HandleMessageAsWritten | lib/active_agent/generation_provider/open_ai_provider.rb:99-106 | the Message.new call as written, including `action_requested:` |
| OpenAIProvider.HandleMessageAsWrittenNeverSucceeds | lib/active_agent/generation_provider/open_ai_provider.rb:99-106 | as written, handle_message never returns a Message; it raises UnknownAttribute(action_requested) whenever its other arguments are fine |
| OpenAIProvider.HandleMessage | lib/active_agent/generation_provider/open_ai_provider.rb:99-106 | corrected: succeeds iff the completion has a message, a String role that is valid, and decodable tool calls; the reply carries that role and the cast content; tool calls are requested iff finish_reason is "tool_calls" |
| OpenAIProvider.Provider.constructor | lib/active_agent/generation_provider/open_ai_provider.rb:11-16 | the api key and model name come from the config; no prompt or response yet |
| OpenAIProvider.Provider.Generate | lib/active_agent/generation_provider/open_ai_provider.rb:18-24 | records the prompt; any raise becomes GenerationProviderError with the same cause; when streaming, returns the prepared stream response; otherwise returns the reply parsed by the corrected handle_message (`HandleMessage`), with its raw response; the held response is stated in each case |
| AnthropicProvider.ModelName | lib/active_agent/generation_provider/anthropic_provider.rb:14 | the configured model when truthy, else "claude-3-5-sonnet-20240620" |
| AnthropicProvider.ConvertRole | lib/active_agent/generation_provider/anthropic_provider.rb:98-106 | always system, user or assistant; tool and function map to assistant; any other role maps to user |
| AnthropicProvider.ContentBlock | lib/active_agent/generation_provider/anthropic_provider.rb:79-92 | an image_url message gives an image block with a url source; any other message gives a text block |
| AnthropicProvider.ProviderMessages | lib/active_agent/generation_provider/anthropic_provider.rb:72-96 | one entry per message, in order, with exactly role (converted) and content (one block) |
| AnthropicProvider.FormatTool | lib/active_agent/generation_provider/anthropic_provider.rb:63-69 | exactly name, description and input_schema; name is the tool's own name, else its function's name |
| AnthropicProvider.FormatTools | lib/active_agent/generation_provider/anthropic_provider.rb:62-70 | an Array is mapped tool by tool (first failure wins); a Hash raises TypeError; any other value raises NoMethod(map) |
| AnthropicProvider.PromptParameters | lib/active_agent/generation_provider/anthropic_provider.rb:47-60 | model, messages, temperature and max_tokens 4096, plus tools only when the actions are present, holding each formatted tool in order; it fails iff formatting the present tools fails, with that error |
| AnthropicProvider.HandleActions | lib/active_agent/generation_provider/anthropic_provider.rb:129-139 | nil when tool_use is absent or empty; otherwise one Action per tool use, in order, with its id, name and input |
| AnthropicProvider.FirstText | lib/active_agent/generation_provider/anthropic_provider.rb:111 | empty content raises NoMethod on nil; otherwise the first block's :text |
| AnthropicProvider.ChatMessageAsWritten | lib/active_agent/generation_provider/anthropic_provider.rb:113-118 | the Message.new call as written, including `action_requested:` |
| AnthropicProvider.ChatMessageAsWrittenNeverSucceeds | lib/active_agent/generation_provider/anthropic_provider.rb:113-118 | as written, chat_response never builds a Message; it raises UnknownAttribute(action_requested) whenever the content is readable |
| AnthropicProvider.ChatReply | lib/active_agent/generation_provider/anthropic_provider.rb:108-127 | corrected: succeeds iff the first text is readable; the reply is an assistant Message with that text cast to a String; tool use is requested iff stop_reason is "tool_use"; the requested actions come from handle_actions |
| AnthropicProvider.DeltasAppend | lib/active_agent/generation_provider/anthropic_provider.rb:39-44 | one more chunk appends exactly its delta text |
| AnthropicProvider.SnapshotsAppend | lib/active_agent/generation_provider/anthropic_provider.rb:39-44 | one more chunk with text adds one observation, the content so far; a chunk without text adds none |
| AnthropicProvider.SnapshotsGrow | lib/active_agent/generation_provider/anthropic_provider.rb:39-44 | each observation of the sink extends the start and is a prefix of the final content, and the last one is the start plus every delta |
| AnthropicProvider.SnapshotsOrdered | lib/active_agent/generation_provider/anthropic_provider.rb:39-44 | what the sink observes only grows: each observation is a prefix of every later one |
| AnthropicProvider.NothingShownNothingAdded | lib/active_agent/generation_provider/anthropic_provider.rb:40-42 | when the sink was never called, no text was added |
| AnthropicProvider.StreamedMessage | lib/active_agent/generation_provider/anthropic_provider.rb:34-45 | a stream leaves the assistant Message whose content is every delta text, in order |
| AnthropicProvider.StreamAccumulator.constructor | lib/active_agent/generation_provider/anthropic_provider.rb:35-37 | starts from empty content; the sink is called only when it is callable |
| AnthropicProvider.StreamAccumulator.Message | lib/active_agent/generation_provider/anthropic_provider.rb:36 | the held Message is the assistant Message with the current content |
| AnthropicProvider.StreamAccumulator.Chunk | lib/active_agent/generation_provider/anthropic_provider.rb:39-44 | a chunk with text appends it and shows the new content to a callable sink; a chunk without text changes nothing |
| AnthropicProvider.StreamAccumulator.Feed | lib/active_agent/generation_provider/anthropic_provider.rb:39-44 | after the chunks, the content has grown by every delta and the sink has observed the snapshots |
| AnthropicProvider.Provider.constructor | lib/active_agent/generation_provider/anthropic_provider.rb:11-16 | the api key and model name come from the config; no prompt or response yet |
| AnthropicProvider.Provider.ChatParameters | lib/active_agent/generation_provider/anthropic_provider.rb:26-30 | fails iff prompt_parameters fails; otherwise exactly prompt_parameters' keys with their values, plus stream (holding the stream proc) iff streaming is requested |
| AnthropicProvider.Provider.Generate | lib/active_agent/generation_provider/anthropic_provider.rb:18-24 | records the prompt; any raise becomes GenerationProviderError with the same cause; when streaming, returns a response whose message holds every streamed delta; otherwise returns the reply of the corrected chat_response (`ChatReply`); the held response is stated in each case |
| Generations.Generation.constructor | lib/active_agent/generation.rb:6-12 | keeps the agent class, action and args (and the params of the parameterized subclass); nothing processed yet |
| Generations.Generation.ProcessedAgent | lib/active_agent/generation.rb:58-62 | processes the agent at most once and then always returns the memoised agent; when processing raises, the error propagates and nothing is memoised |
| Generations.Generation.GetObj | lib/active_agent/generation.rb:15-17 | keeps a held prompt; otherwise processes the agent and holds its prompt; when processing or reading the prompt raises, the error propagates and no prompt is held |
| Generations.Generation.SetObj | lib/active_agent/generation.rb:19-21 | holds the given prompt, which makes the handle processed |
| Generations.Generation.EnqueueGeneration | lib/active_agent/generation.rb:64-79 | once processed it raises and enqueues nothing; otherwise it enqueues exactly one job with the class name, `action.to_s`, the params and the args |
| Generations.Generation.GenerateLater | lib/active_agent/generation.rb:35-37 | enqueue_generation for generate_now, with the same outcome |
| Generations.Generation.GenerateLaterBang | lib/active_agent/generation.rb:31-33 | enqueue_generation for generate_now!, with the same outcome |
| Generations.Generation.GenerateNow | lib/active_agent/generation.rb:47-54 | processes the agent, holds the prompt, and generates from that agent and prompt; a raise in processing or in reading the prompt propagates; nothing is enqueued |
| Generations.Generation.GenerateNowBang | lib/active_agent/generation.rb:39-45 | processes the agent and calls generate! on it, or propagates the raise from processing; the prompt is untouched |
| Parameterized.With | lib/active_agent/parameterized.rb:16-18 | the wrapper keeps the agent class and the params unchanged |
| Parameterized.MethodMissing | lib/active_agent/parameterized.rb:27-33 | a public instance method gives a Generation with the agent class, the action name, the args and exactly the params given to `with` (unchanged); any other name raises NoMethodError |
| Parameterized.RespondToMissing | lib/active_agent/parameterized.rb:35-37 | the wrapper responds iff the agent class does |
| AgentBase.AgentClass.constructor | lib/active_agent/base.rb:60-67 | options is nil; default_params is the declared default; no provider |
| AgentBase.AgentClass.GenerateWith | lib/active_agent/base.rb:133-136 | sets the provider and options to exactly the given ones |
| AgentBase.AgentClass.StreamWith | lib/active_agent/base.rb:138-140 | adds stream to the options and keeps their other keys |
| AgentBase.AgentClass.Default | lib/active_agent/base.rb:156-159 | merges the given value, which wins, into default_params and returns them; with no value, nothing changes |
| AgentBase.AgentClass.NewAgent | lib/active_agent/base.rb:213-217 | nil class options raise NoMethod(`[]`); otherwise a fresh agent whose prompt carries the class's instructions |
| AgentBase.ComputeDefault | lib/active_agent/base.rb:342-350 | a Proc is evaluated on the agent; any other value is itself |
| AgentBase.ApplyDefaults | lib/active_agent/base.rb:334-340 | header keys are kept; each missing default is added, computed |
| AgentBase.ApplyDefaultsEvaluatesOnlyMissing | lib/active_agent/base.rb:334-340 | only defaults the headers lack are evaluated |
| AgentBase.SetContentType | lib/active_agent/base.rb:317-323 | a present user content type wins, else the context's, else the class default |
| AgentBase.ResponseSourceOf | lib/active_agent/base.rb:358-366 | the responses come from a block if given, else a truthy :body, else the templates |
| AgentBase.CollectResponsesFromText | lib/active_agent/base.rb:375-380 | one response with the body and a content type defaulting to text/plain; :body is removed from the headers |
| AgentBase.CollectResponses | lib/active_agent/base.rb:358-366 | takes the block's responses, else the text response, else the templates' |
| AgentBase.WithCharset | lib/active_agent/base.rb:415-418 | a truthy charset is kept; otherwise the given one is set |
| AgentBase.PartContainer.constructor | lib/active_agent/base.rb:404-413 | starts with no parts |
| AgentBase.PartContainer.InsertPart | lib/active_agent/base.rb:415-418 | appends one part, the response with its charset defaulted |
| AgentBase.PartContainer.CreatePartsFromResponses | lib/active_agent/base.rb:404-413 | appends one part per response, in order, and keeps the earlier parts |
| AgentBase.Agent.constructor | lib/active_agent/base.rb:213-217 | prompt not yet called; the context is a fresh Prompt with the instructions; params unset |
| AgentBase.Agent.Params | lib/active_agent/parameterized.rb:10-12 | `@params ||= {}`: a truthy value is kept, anything else becomes {} and stays |
| AgentBase.Agent.SetParams | lib/active_agent/parameterized.rb:8 | params are exactly the given value |
| AgentBase.Agent.Process | lib/active_agent/base.rb:219-230 | unless prompt was called, the context becomes a fresh empty Prompt; params are untouched |
| AgentBase.Agent.Prompt | lib/active_agent/base.rb:289-307 | once called, with no headers and no block, the context is returned; otherwise setting the charset raises NoMethod |
| AgentBase.Agent.PerformGeneration | lib/active_agent/base.rb:208-211 | always raises NoMethod(options) on the Prompt |
| GenerationMethods.HashOrEmpty | lib/active_agent/generation_methods.rb:43 | `x \|\| {}`: a falsy value gives {} and a Hash gives its entries; any other settings value has no `merge` (NoMethodError), and any other options value is refused by `Hash#merge` (TypeError) |
| GenerationMethods.Dispatch | lib/active_agent/generation_methods.rb:34-53 | nil raises; a Symbol not registered raises Invalid; a registered Symbol gives its class with settings merged under options, where a bad settings value raises before a bad options value; any other value is passed through directly |
| GenerationMethods.Registry.constructor | lib/active_agent/generation_methods.rb:14-23 | :smtp is the method, only :test is registered, and both flags are true |
| GenerationMethods.Registry.AddGenerationMethod | lib/active_agent/generation_methods.rb:28-32 | registers the class and settings under the symbol; nothing else changes |
| GenerationMethods.PromptTarget.constructor | lib/active_agent/generation_methods.rb:36 | nothing is set yet on the prompt |
| GenerationMethods.PromptTarget.WrapGenerationBehavior | lib/active_agent/generation_methods.rb:34-53 | the handler is set; the dispatch result is installed, or its error raised; the flags are copied only on success |
| GenerationMethods.DefaultMethodIsUnregistered | lib/active_agent/generation_methods.rb:20-22 | with the defaults, a call without a method raises Invalid for :smtp |
| GenerationMethods.TestMethodDispatch | lib/active_agent/generation_methods.rb:22 | :test dispatches to TestAgent with exactly the given options |
| Configuration.EnvName | lib/active_agent.rb:29 | RAILS_ENV, else ENV, else "development" |
| Configuration.SelectConfig | lib/active_agent.rb:30 | the environment's truthy section, else the whole document; it fails iff the document cannot be indexed |
| Configuration.Settings.constructor | lib/active_agent.rb:21 | config starts as nil |
| Configuration.Settings.SetConfig | lib/active_agent.rb:21 | the reader returns exactly the assigned value |
| Configuration.Settings.LoadConfiguration | lib/active_agent.rb:27-31 | config becomes the selected section; on failure it stays unchanged |
| ProviderLookup.Lookup | lib/active_agent/generation_provider.rb:6-7 | the top-level entry when truthy, else the entry under RAILS_ENV; a missing entry raises; a found config is truthy |
| ProviderLookup.ConfigureProvider | lib/active_agent/generation_provider.rb:13-18 | a non-String service raises NoMethod; an unknown provider file raises "Missing generation provider"; a file whose camelized class does not exist raises NameError; otherwise the camelized class is chosen with the whole config |
| ProviderLookup.OpenAIServiceSelected | lib/active_agent/generation_provider.rb:13-18 | service "OpenAI", given an inflector that underscores it to "open_ai" and camelizes it to itself (as ActiveSupport's defaults do), selects OpenAIProvider with the whole config |
| ProviderLookup.SnakeCaseOpenAIServiceNotFound | lib/active_agent/generation_provider.rb:13-18 | service "open_ai", given an inflector that camelizes it to "OpenAi" (ActiveSupport's default, with no "AI" acronym), finds the provider file but raises NameError for "OpenAiProvider"; only LoadError is rescued |
| ProviderLookup.For | lib/active_agent/generation_provider.rb:5-11 | finds the config, merges the options into it in place (so the global config changes), and configures the provider from it |
| ProviderLookup.WriteBackIsSeenByLookup | lib/active_agent/generation_provider.rb:9 | after `merge!`, a second lookup of the same name finds the merged hash |
| ProviderLookup.OptionsKeepStringKeys | lib/active_agent/generation_provider.rb:9 | Symbol keyword options never override a String key of the config |

## Left out

- Remote clients (OpenAI::Client, Anthropic::Client) are function parameters. Their wire formats and failures are not modelled beyond "returns a reply or raises".
- JSON decoding, YAML loading, `String#underscore`/`camelize` and the evaluation of Proc defaults are function parameters.
- OpenAI embeddings (`embed`, `embeddings_parameters`, `embeddings_response`, `embeddings_prompt`) are a separate API, outside this core.
- OpenAI `provider_stream` is left out. Its chunk handler calls `new_content.blank`, which Strings lack, so it raises on every chunk with content. Only the response it prepares before streaming is modelled, as `Wire.StreamStart`.
- `update_context` is left out. Both providers call it, but none of these files defines it.
- The Base provider's `response` helper is left out. Nothing in the core calls it.
- Rendering, view templates, `action_schemas`, `collect_responses_from_block` and `collect_responses_from_templates` are left out. Their results enter `CollectResponses` as given inputs.
- Left out as Rails infrastructure: ActiveSupport notifications, Mail, I18n subjects, observers, interceptors, callbacks (`run_callbacks`) and `handle_exceptions`.
- `binding.irb` in `generate_now` is a debugger breakpoint with no effect on the result.
- Float temperatures are kept as literals (`VFloat("0.7")`); no arithmetic is done on them.
- The multipart branch of `Base#prompt` is unreachable, because the charset assignment before it raises.
- The Ollama and OpenRouter providers, and class-attribute inheritance between agent subclasses, are left out.
- AnthropicProvider.Provider.Generate: a client that fails part-way through a stream is modelled as failing before any chunk.
- AnthropicProvider.StreamAccumulator: the sink counts as callable only when it is a Proc. In Ruby, `respond_to?(:call)` also holds for a Method object or any object defining `call`, and such a sink would be called; the model never calls it. A sink that raises part-way through the stream is not modelled either.
- AnthropicProvider.StreamAccumulator: the sink receives the same mutable Message each time; the model records the content it sees at each call (snapshots) rather than the aliasing.
- Values.ToS: the rendering of Arrays, Hashes and objects (`inspect` text) is not spelled out. In Ruby such a rendered String does respond to `intern`, `underscore` and `camelize`; the model makes them raise NoMethod on it instead.
- Messages.New: ActiveModel reports the first unknown attribute; the model reports the set of unknown keys.
- Prompts.Prompt.ToH: the ArgumentError that `to_h` raises for pairs of the wrong length is modelled as TypeMismatch.
- Instructions, options, charset and content type: a real `Prompt` has no `options`, `charset` or `content_type`. `AgentBase.SetContentType` therefore takes the context's content type as a parameter, although `context.content_type` (base.rb:321) would raise NoMethodError; that call is not reached, because `context.charset =` raises first. The providers therefore read their own prompt view (`Wire.ProviderPrompt`), and `AgentBase.Agent.Prompt` and `PerformGeneration` model the NoMethodError.
- ProviderBase.PromptMessages: it reads its own view record. A real Prompt's String instructions have no `to_h`.
- ProviderLookup.ConfigureProvider: `const_get` is approximated by a fixed set of provider files and classes.
- GenerationMethods: `wrap_generation_behavior!` passes the agent's `prompt` (Base#prompt) to `WrapGenerationBehavior`. Past its early return, Base#prompt raises NoMethodError at `context.charset =` (see `AgentBase.Agent.Prompt`), so the bang variant raises before any dispatch. It is not modelled separately.
- GenerationMethods.PromptTarget: a real `ActionPrompt::Prompt` has no `generation_handler=`, `generation_method`, `perform_generations=` or `raise_generation_errors=`. PromptTarget stands for a receiver that has them, not for that class.
- AgentBase.PartContainer: a real `ActionPrompt::Prompt` has no `add_part`. PartContainer stands for a container that has it, not for that class.
- OpenAIProvider.Provider.Generate: the non-streaming result is stated with the corrected `HandleMessage`. As written (see "## Findings"), every non-streamed completion raises UnknownAttributeError, so `generate` raises GenerationProviderError instead.
- AnthropicProvider.Provider.Generate: the non-streaming result is stated with the corrected `ChatReply`. As written (see "## Findings"), every non-streamed reply raises UnknownAttributeError, so `generate` raises GenerationProviderError instead.
- FormatTool: Symbol and String hash keys share one key space, so `tool[:name]` in the model also finds a String key "name". The tools that `action_schemas` builds come from `JSON.parse` without `symbolize_names`, so they have String keys. On them Ruby's `tool[:name]` is nil and `tool[:function][:name]` raises NoMethodError, but the model's FormatTool succeeds.
- Prompts.Prompt.constructor: for the same reason, `attributes[:message]` in the model also sees a String key "message", where Ruby sees only the Symbol key.
- Access.HashIndex: with the shared key space, a Symbol lookup finds a String key of the same name. Only `ProviderLookup` keeps the two apart (a Symbol keyword there is written ":key"), because only there do both kinds meet in one hash.
- ApplyDefaults: a Proc default is evaluated by a total function, so a default that raises is not modelled.
- Prompts.Attrs: `messages` is given as a list of slots. In Ruby `any?` and `map` run on whatever was given, so a String raises and a Hash maps its pairs; neither is modelled. Attrs also has no room for an undeclared key, so the ActiveModel::UnknownAttributeError that `Prompt.new(foo: 1)` raises is not modelled; no modelled caller passes such a key.
- Prompts.PairsToH: pairs whose key is neither a String nor a Symbol are refused rather than converted.
- Access.IndexString: an unrendered String (`VToS`) is not searched; it is treated like an Array, which rejects a String index.
- ActiveAgent.configure yields the module to a block; it is represented only by `Settings.SetConfig`.

## Findings

| source | as written | input that shows it | evidently intended | confidence | as-written member | corrected member |
|---|---|---|---|---|---|---|
| lib/active_agent/generation_provider/open_ai_provider.rb:99-106 | `Message.new` is given `action_requested:`, which Message does not declare, so ActiveModel raises UnknownAttributeError | any chat completion, e.g. `{"role" => "assistant", "content" => "hi", "finish_reason" => "stop"}` | return the assistant Message, with the `finish_reason == "tool_calls"` flag kept beside it | not executed | OpenAIProvider.HandleMessageAsWrittenNeverSucceeds | OpenAIProvider.HandleMessage |
| lib/active_agent/generation_provider/anthropic_provider.rb:113-118 | `Message.new` is given `action_requested:`, which Message does not declare, so every non-streamed reply raises | a reply with content `[{text: "hi"}]` and stop_reason "end_turn" | return the assistant Message of the first text, with the `stop_reason == "tool_use"` flag kept beside it | not executed | AnthropicProvider.ChatMessageAsWrittenNeverSucceeds | AnthropicProvider.ChatReply |
