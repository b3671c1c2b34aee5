# creatosphere-builder: suggestion function and lead forms, in Dafny

This project models the decision logic of a small web site that suggests
student projects and collects leads.

**The `suggest-projects` edge function** takes `{skillLevel, interest}` as JSON.
- It asks an AI gateway for ideas, forcing one tool call, `suggest_projects`.
- It passes 429 and 402 through and turns every other failure into 500 `{error}`.
- It answers with the tool call's arguments, parsed and serialised again.
- Every response carries the two CORS headers.

**The ideas finder** (`ProjectIdeasFinder`) is the client of that function.
- Two menus gate the call.
- The list is cleared when a call starts and replaced when it succeeds.
- The busy flag is always cleared.
- A badge style is picked per difficulty.

**Four lead forms** each have a required-field check and a submission.
- The build-request dialog and the referral form insert one row each. Empty optional text becomes SQL null.
- The referral form is checked by a schema that trims each value, then bounds its length and checks the email pattern.
- The request form and the contact form only show a toast and clear themselves.

Everything is a pure function over immutable datatypes. The outside world is a parameter:
- the gateway's answer (`FetchOutcome`);
- the API key (`Option<string>`);
- the insert's result (`InsertOutcome`);
- the email pattern (`isEmail`);
- what `functions.invoke` returns (`InvokeOutcome`).

The project has these modules:

| module | file | what it holds |
|---|---|---|
| `Json` | json.dfy | JSON values with integer numbers; `JSON.stringify` (`Stringify`) and `JSON.parse` (`Parse`), including whitespace, escapes, `\u` escapes, duplicate keys and error messages; and the round trip `Parse(Stringify(v)) == Ok(v)` for every value `Parse` can produce |
| `Js` | js.dfy | the JavaScript semantics the code relies on |
| `Ui` | ui.dfy | toasts and the outcome of an insert |
| `SuggestProjects` | suggest_projects.dfy | the edge function |
| `IdeasFinder` | ideas_finder.dfy | the finder component |
| `BuildRequest`, `Referral`, `RequestForm`, `Contact` | one file each | the forms |
| `EndToEnd` | end_to_end.dfy | one click carried from the finder through the function and back |

`Js` covers:
- truthiness;
- `||` on strings and optional strings;
- property reads, plain and with optional chaining, including the `TypeError` a read of null throws;
- ToString as template literals apply it;
- UTF-16 length;
- `String.prototype.trim`.

The function reads only `skillLevel` and `interest` from the request body (supabase/functions/suggest-projects/index.ts:14). A department, a project type or a time commitment sent along would be ignored, and the prompt names only the two values it reads (index.ts:23-32).

## Model

| member | source | states |
|---|---|---|
| SuggestProjects.Handle | supabase/functions/suggest-projects/index.ts:8-135 | A preflight gets status 200, exactly the two CORS headers and no body. It never calls the gateway. Both CORS headers are on every response. The gateway is called exactly when the method is not OPTIONS, the body parses to a non-null value, the key is set and non-empty, and the template literal can convert both values read. The call is a POST to the gateway URL, with `Bearer <key>` and the chat body built from the prompt. Its answer is handled by `Reply`. A body that does not parse, or parses to null, gives 500 with the thrown message. A missing key gives 500 "LOVABLE_API_KEY is not configured". A skill level or interest that the template cannot convert gives 500 "Cannot convert object to primitive value", with no gateway call. |
| SuggestProjects.Reply | supabase/functions/suggest-projects/index.ts:84-134 | A rejected fetch gives 500 with the error's message, or "Unknown error" for a non-Error. 429 gives 429 with the rate-limit message. 402 gives 402 with the payment message. Any other non-2xx status gives 500 "AI gateway error", never the upstream status. The status is 200 exactly when the gateway answered 2xx and its tool call's arguments parse. The 200 body is those arguments serialised again. A 2xx answer whose extraction throws gives 500 with the thrown message. Every status is one of 200/402/429/500, with the CORS and JSON content-type headers and a text body. |
| SuggestProjects.HandleStatuses | supabase/functions/suggest-projects/index.ts:9-133 | Every response has status 200, 402, 429 or 500. Only the preflight has no body. |
| SuggestProjects.ErrorBodyDecodes | supabase/functions/suggest-projects/index.ts:86-133 | Every error body decodes to an object whose only member is `error`, holding the message. |
| SuggestProjects.ReadInput | supabase/functions/suggest-projects/index.ts:14 | Reading the body succeeds exactly when it parses and is not null. In that case the two values are its `skillLevel` and `interest` members, undefined when absent. |
| SuggestProjects.UserPrompt | supabase/functions/suggest-projects/index.ts:23-32 | Building the prompt throws "Cannot convert object to primitive value" exactly when the skill level or the interest is an object with its own `toString`, or an array holding one. Otherwise the prompt is the template filled with the two converted values. |
| SuggestProjects.PromptText | supabase/functions/suggest-projects/index.ts:23-32 | The prompt holds the skill level right after the fixed lead. It holds the interest right after the fixed middle part. Its length is the sum of the parts. |
| SuggestProjects.KeyConfigured | supabase/functions/suggest-projects/index.ts:15-19 | The key passes exactly when it is truthy in JavaScript: set and non-empty. |
| SuggestProjects.Ok2xx | supabase/functions/suggest-projects/index.ts:84 | `response.ok` holds exactly for a status from 200 to 299, the statuses whose hundreds digit is 2. |
| SuggestProjects.ErrorMessage | supabase/functions/suggest-projects/index.ts:129 | A thrown Error is reported by its own message. Any other thrown value is reported as "Unknown error". |
| SuggestProjects.ToolCallOf | supabase/functions/suggest-projects/index.ts:115 | Reading `data.choices?.[0]?.message?.tool_calls?.[0]` throws exactly when `data` is null or undefined. |
| SuggestProjects.ToolCallOfIsAt | supabase/functions/suggest-projects/index.ts:115 | For parsed data that is not null, the optional chain gives the value at the path `choices/0/message/tool_calls/0`, or undefined where the path breaks. |
| SuggestProjects.ToolArguments | supabase/functions/suggest-projects/index.ts:114-115 | A gateway body that is not JSON fails with the parse error unchanged. A body that parses to null fails with the TypeError of reading `choices` of null. |
| SuggestProjects.ToolArgumentsAt | supabase/functions/suggest-projects/index.ts:114-121 | For a body that parses to anything else, the outcome follows a plain walk of the parsed value. Without a truthy value at `choices/0/message/tool_calls/0` it fails with "No tool call in response". With a tool call whose `function` is null or undefined it fails with the TypeError of reading `arguments`. An arguments value that cannot be converted to a string fails with "Cannot convert object to primitive value". Otherwise it is the parse of the value at `.../function/arguments`, converted to a string. |
| SuggestProjects.ArgumentsEchoed | supabase/functions/suggest-projects/index.ts:114-125 | Take any 2xx gateway body, with any other members and any whitespace, whose `choices/0/message/tool_calls/0/function/arguments` is a string that parses to a value with integer-only members. The response is 200 with that value serialised again, and it parses back to the value. |
| SuggestProjects.MissingToolCall | supabase/functions/suggest-projects/index.ts:114-134 | Any 2xx gateway body that parses to a non-null value without a truthy tool call gives 500 "No tool call in response". |
| SuggestProjects.StringToolCallThrows | supabase/functions/suggest-projects/index.ts:115-134 | A tool call that is a non-empty string passes the truthiness check. Reading `function.arguments` of it then throws, so the answer is 500 with "Cannot read properties of undefined (reading 'arguments')". |
| SuggestProjects.ToolChoiceForcesDeclaredTool | supabase/functions/suggest-projects/index.ts:46-80 | The body declares exactly one tool, a function named `suggest_projects`. `tool_choice` names that same function. |
| SuggestProjects.ToolParameters | supabase/functions/suggest-projects/index.ts:52-76 | The tool's parameters are the parameter schema. |
| SuggestProjects.ParametersRequireProjects | supabase/functions/suggest-projects/index.ts:52-76 | The parameters must be an object that requires `projects` and allows no other member. |
| SuggestProjects.ProjectsAreIdeas | supabase/functions/suggest-projects/index.ts:55-72 | `projects` is an array whose items follow the idea schema. |
| SuggestProjects.IdeaRequiresEveryProperty | supabase/functions/suggest-projects/index.ts:59-69 | An idea has five properties, and the i-th required name is the i-th property, so all five are required. |
| SuggestProjects.DifficultyEnum | supabase/functions/suggest-projects/index.ts:62 | An idea's difficulty is limited to "Easy", "Medium" and "Hard". |
| SuggestProjects.PromptsInOrder | supabase/functions/suggest-projects/index.ts:41-45 | The body's messages are the system prompt and then the user prompt, with those roles, in that order. |
| SuggestProjects.ChatBodyDecodes | supabase/functions/suggest-projects/index.ts:40-81 | The body sent to the gateway is a well-formed JSON value: its text parses back to the same value. |
| IdeasFinder.Begin | src/components/ProjectIdeasFinder.tsx:26-42 | The click is refused with the "Missing Information" toast exactly when either selection is empty. Otherwise loading starts, the list is emptied, and the body sent is exactly `{skillLevel, interest}`. |
| IdeasFinder.Complete | src/components/ProjectIdeasFinder.tsx:44-64 | After the call, loading is off and the selections are kept. A failed call shows the error toast and changes nothing else. A truthy `data?.projects` becomes the list. The toast then shows its `length` as the template converts it; when that conversion throws, the list stays set but the error toast is shown. Otherwise nothing changes and no toast is shown. |
| IdeasFinder.ListCounted | src/components/ProjectIdeasFinder.tsx:48-53 | When `data.projects` is an array, it becomes the list and the toast gives its number of ideas in decimal. |
| IdeasFinder.ButtonDisabled | src/components/ProjectIdeasFinder.tsx:146 | The button is disabled exactly when a call is running or a click would be refused for a missing selection. |
| IdeasFinder.FindProjects | src/components/ProjectIdeasFinder.tsx:26-65 | A call is made exactly when both selections are set. A refusal leaves the state untouched. After a call, loading is off. The list is `data.projects` when that is truthy, and empty otherwise. |
| IdeasFinder.DifficultyColor | src/components/ProjectIdeasFinder.tsx:67-78 | Any text gets one of four styles. The fallback style goes exactly to text other than Easy, Medium and Hard. |
| IdeasFinder.DifficultyColorsDistinct | src/components/ProjectIdeasFinder.tsx:69-74 | The three difficulties get three different styles. |
| IdeasFinder.EnabledButtonCalls | src/components/ProjectIdeasFinder.tsx:26-37 | An enabled button leads to a call that starts loading and clears the list. |
| IdeasFinder.ButtonDuringAndAfter | src/components/ProjectIdeasFinder.tsx:36-64 | The button is disabled while a call runs, and enabled again after it, whatever the outcome. |
| IdeasFinder.MenuChoicesCall | src/components/ProjectIdeasFinder.tsx:114-139 | Any choice from the two menus passes the check. |
| EndToEnd.Invoke | src/components/ProjectIdeasFinder.tsx:40-46 | The client gets data exactly when the function answered 2xx with a body that parses. |
| EndToEnd.Click | src/components/ProjectIdeasFinder.tsx:26-65 | One click is the function's exchange for the posted selections. After it, loading is off and the selections are kept. |
| EndToEnd.ServerReadsSelections | src/components/ProjectIdeasFinder.tsx:40-42 | The function reads back exactly the two selections the client sent, as strings. |
| EndToEnd.ClickReachesGateway | supabase/functions/suggest-projects/index.ts:14-44 | With a key, a click makes one gateway call, whose body is built from the two selections. The prompt names both, where the template puts them. The client shows what it makes of `Reply`. |
| EndToEnd.MissingKeyShown | supabase/functions/suggest-projects/index.ts:15-19 | Without a key there is no gateway call, and the function answers 500. The client shows the error toast over an empty list. |
| EndToEnd.IdeasReachClient | supabase/functions/suggest-projects/index.ts:114-125 | Take any 2xx gateway body whose tool call's arguments text parses to `{projects: ideas}`. The ideas reach the client's list in order and in full. The toast counts them, and the button is enabled again. |
| EndToEnd.UpstreamRefusalShown | supabase/functions/suggest-projects/index.ts:84-112 | An upstream refusal gives 429 or 402 unchanged, and 500 otherwise. The client shows the error toast over an empty list. |
| EndToEnd.NoToolCallShown | supabase/functions/suggest-projects/index.ts:114-119 | Any 2xx gateway body that parses to a non-null value without a tool call gives 500 "No tool call in response". The client shows the error toast over an empty list. |
| EndToEnd.SchemaDifficultiesStyled | src/components/ProjectIdeasFinder.tsx:67-78 | Every difficulty the tool schema allows gets its own badge style, never the fallback. |
| BuildRequest.Set | src/components/ProjectBuildRequestDialog.tsx:123-198 | Editing a field sets that field and leaves the other five unchanged. |
| BuildRequest.SetLaws | src/components/ProjectBuildRequestDialog.tsx:126-197 | Writing back a field's own value changes nothing. A second write to a field wins over the first. |
| BuildRequest.BuildRow | src/components/ProjectBuildRequestDialog.tsx:63-75 | Name, email, title and description are copied. Each optional text field and each optional prop becomes null when it is empty or absent, and is copied verbatim otherwise. |
| BuildRequest.FormOfBuildRow | src/components/ProjectBuildRequestDialog.tsx:64-74 | The row loses nothing of the form: reading nulls back as "" gives the form again. |
| BuildRequest.NoEmptyColumns | src/components/ProjectBuildRequestDialog.tsx:66-74 | No optional column of a row holds the empty string. |
| BuildRequest.MenuChoicesStored | src/components/ProjectBuildRequestDialog.tsx:161-186 | A budget and a timeline picked from the two menus are stored as picked, never as null. |
| BuildRequest.Submit | src/components/ProjectBuildRequestDialog.tsx:48-104 | A row is sent exactly when name and email are filled in. A refusal shows "Missing Information" and changes nothing. A row sent is `BuildRow` of the form, and the busy flag ends cleared. Success empties all six fields and closes the dialog. Failure keeps the form and the open state. |
| BuildRequest.RetrySendsSameRow | src/components/ProjectBuildRequestDialog.tsx:94-103 | After a failed insert, submitting again sends the same row. |
| BuildRequest.ClearedFormRefused | src/components/ProjectBuildRequestDialog.tsx:85-93 | After a success, submitting again is refused until the required fields are filled in again. |
| Referral.FieldError | src/components/Referral.tsx:14-21 | A field passes exactly when its trimmed value meets every check. A name must be 1 to 100 UTF-16 units long. An email must match the pattern and be at most 255 long. The phone may be at most 20 long, and the message at most 500. |
| Referral.ErrorsOf | src/components/Referral.tsx:14-21 | The error list is empty exactly when every listed field passes. Each error names a listed field together with that field's first failing message. Every failing listed field is reported with that message. |
| Referral.Validate | src/components/Referral.tsx:14-29 | The values are accepted exactly when all six fields pass. The accepted values are the trimmed ones. A refusal reports exactly the errors of the failing fields, in field order, each with its first failing message; there is at least one. |
| Referral.ValidOutput | src/components/Referral.tsx:14-21 | Each accepted field is the trimmed input, with no space at either end. It is within its field's length bound. A name is non-empty, and an email matches the pattern. |
| Referral.ValidateIdempotent | src/components/Referral.tsx:14-21 | Accepted values pass the schema again unchanged. |
| Referral.RowOf | src/components/Referral.tsx:43-50 | The four required columns are copied from the accepted values. An empty phone or message becomes null, and a non-empty one is copied. |
| Referral.BlankOptionalsAreNull | src/components/Referral.tsx:19-49 | A phone or message made only of spaces is stored as null, and only such a one. |
| Referral.Submit | src/components/Referral.tsx:40-62 | A row is sent exactly when the values are accepted. A refusal changes nothing and shows the errors. A row sent is built from the trimmed values, and the busy flag ends cleared. Success resets the form to its defaults and shows the thank-you toast. Failure keeps the values and shows the error toast. |
| Referral.DefaultsRefused | src/components/Referral.tsx:14-37 | The default, empty values are refused with "Your name is required". |
| RequestForm.Set | src/components/RequestForm.tsx:63-133 | Editing a field sets that field and leaves the other five unchanged. |
| RequestForm.SetLaws | src/components/RequestForm.tsx:66-132 | Writing back a field's own value changes nothing. A second write wins. Writes to two different fields commute. |
| RequestForm.Submit | src/components/RequestForm.tsx:21-41 | A form with name, email and project type filled in is cleared and gets the success toast. Any other form is kept and gets the error toast. |
| RequestForm.MenuChoiceFillsProjectType | src/components/RequestForm.tsx:99-113 | With name and email set, picking any of the five project types makes the form accepted. |
| RequestForm.OptionalFieldsIgnored | src/components/RequestForm.tsx:25 | Phone, description and budget play no part in the decision. |
| RequestForm.SubmitTwice | src/components/RequestForm.tsx:25-40 | Submitting again right after a submission is always refused. A refused form is refused in the same way again. |
| Contact.Set | src/components/Contact.tsx:51-79 | Editing a field sets that field and leaves the other two unchanged. |
| Contact.SetLaws | src/components/Contact.tsx:54-76 | Writing back a field's own value changes nothing. A second write wins. Writes to two different fields commute. |
| Contact.Submit | src/components/Contact.tsx:17-32 | A form with every field non-empty (spaces count) is cleared and gets the success toast. Any other form is kept and gets the error toast. |
| Contact.FillingLastField | src/components/Contact.tsx:20-31 | Filling in the one empty field turns a refusal into an acceptance. |
| Contact.EmptyingAnyField | src/components/Contact.tsx:20-23 | Emptying any field makes the form refused, and the form is kept as it was. |
| Json.ParseStringify | supabase/functions/suggest-projects/index.ts:121-123 | Parsing serialised text gives back the value, for every value the parser can produce. |
| Json.StringifyParse | supabase/functions/suggest-projects/index.ts:121-123 | Serialising what was parsed from serialised text gives back the text verbatim. |
| Json.Parse | supabase/functions/suggest-projects/index.ts:114-121 | What parses is a value whose objects have distinct keys. |
| Js.Member | supabase/functions/suggest-projects/index.ts:14-121 | Reading a property of an object looks the key up. A property of null, a boolean or a number is undefined. A string has exactly its `length` and the indexes below its length. |
| Js.MemberOfCharacter | supabase/functions/suggest-projects/index.ts:115 | Indexing a string inside its bounds gives the one-character string there, which is truthy. |
| Js.Get | supabase/functions/suggest-projects/index.ts:115-121 | A property read throws exactly on null and undefined, and otherwise gives the member. |
| Js.ToJsString | supabase/functions/suggest-projects/index.ts:23-121 | Converting a value to a string throws "Cannot convert object to primitive value" exactly for an object with its own `toString`, or an array holding one at any depth. A string converts to itself. |
| Js.OptGet | supabase/functions/suggest-projects/index.ts:115 | Optional chaining gives undefined on null and undefined, and the member otherwise. |
| Js.OrNull | src/components/ProjectBuildRequestDialog.tsx:66 | `s \|\| null` is null exactly for the empty string, and `s` otherwise. |
| Js.OptionalOrNull | src/components/ProjectBuildRequestDialog.tsx:69-71 | An absent or empty prop becomes null, and any other value is kept. |
| Js.Utf16Length | src/components/Referral.tsx:15-20 | A string's UTF-16 length lies between its code-point count and twice that. It is 0 exactly for the empty string. |
| Js.Trim | src/components/Referral.tsx:15-20 | The trimmed string is no longer than the input and has no space at either end. |
| Js.TrimIsSlice | src/components/Referral.tsx:15-20 | Trimming cuts only spaces, and only from the two ends. |
| Js.TrimIdempotent | src/components/Referral.tsx:15-20 | Trimming twice is trimming once. |
| Js.TrimEmpty | src/components/Referral.tsx:19-20 | A string trims to nothing exactly when it is all spaces. |

## Left out

- I/O and the runtime are parameters, not models: `fetch`, `serve`, `Deno.env`, `supabase.functions.invoke` and `.from().insert()`.
- `console.error` logging is left out.
- Failures while reading the gateway's body are not modelled. The model assumes that neither `response.text()` on the 500 path (supabase/functions/suggest-projects/index.ts:103) nor `response.json()` on the 2xx path (index.ts:114) rejects. When one does, the handler answers 500 with the rejection's message.
- Rendering, styling and toast display are left out. A toast is a value (title, description, destructive or not).
- The email pattern of the schema library is the parameter `isEmail`. Its regular expression is not modelled.
- react-hook-form internals and the browser's own form checks are left out. These checks are the HTML `required` attribute and the `type="email"` inputs (src/components/Referral.tsx:111, 143, and the email inputs of the other three forms). The browser would stop some submissions before `handleSubmit` runs: an empty required field, or an email it considers malformed. So `Referral.Validate`'s "Invalid email address" is not always what the user sees. The model takes `handleSubmit` as the only gate.
- The number of ideas ("5") is only asked for in the prompt, and no code checks it, so nothing is stated about it.
- JSON numbers are integers: fractions and exponents are not modelled. `-0` parses as 0, which nothing in the core can tell apart from JavaScript's negative zero.
- SuggestProjects.Reply: a gateway body or an arguments text holding a number with a fraction or an exponent does not parse in the model, so the answer is 500. JavaScript accepts such a number and would answer 200.
- SuggestProjects.ReadInput: a request body holding a number with a fraction or an exponent, anywhere in it, does not parse in the model, so the answer is 500. JavaScript accepts it.
- Json.Parse: numbers are kept as exact integers, while JavaScript holds them as IEEE doubles. `JSON.parse` rounds an integer beyond 2^53 to the nearest double, and `JSON.stringify` writes an integer of 10^21 or more in exponent form. So the round trips hold in JavaScript only for integers within those bounds.
- SuggestProjects.ArgumentsEchoed: the response carries the same value only for arguments whose integers lie within 2^53. Larger ones come back rounded, as the previous line describes.
- Js.Member: a string is indexed by character, not by UTF-16 code unit. The two agree on text inside the Basic Multilingual Plane. Beyond it, an index past the character count reads undefined, where JavaScript reads a lone surrogate.
- A `\u` escape of a lone surrogate is refused by the model, although JavaScript accepts it. A Dafny string holds only Unicode scalar values. Surrogate pairs are combined into one character, as JavaScript does.
- JavaScript orders integer-like keys of an object ahead of other keys. The model keeps keys in insertion order.
- Json.Parse: the error messages follow the V8 engine's wording only approximately. The contracts state where a parse fails, not the exact words.
- EndToEnd.Invoke: the client library is not part of this model. `Invoke` assumes it turns a non-2xx status or an unparsable body into an error, and decodes a JSON body otherwise.
- The admin page, navigation and the static sections are out of scope. They are I/O, scrolling and markup.
