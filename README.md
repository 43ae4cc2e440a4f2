# Profile agent: turn routing, profile lookup and lead logging

This project models the core of a conversational "AI résumé" agent in Dafny.
The agent answers questions about one person's professional profile, and it
records recruiter leads. It covers two source files:

- `agent.py` handles one turn. A message that looks like a recruiter's
  (a hiring keyword and a contact keyword) goes to recruiter mode. There the
  lead extracted from the message is logged, or a logging failure is
  reported, or the missing details are asked for. Every other message is
  answered by the language model. The model receives one system message
  (a fixed prompt plus the profile blocks the question's keywords ask for),
  the user and assistant turns of the history, and the new message.
- `tools.py` holds the tools. It keeps a lazily loaded profile cache, looks
  up sections through an alias table, searches projects by name ignoring
  case, and appends leads to a CSV file.

`agent.py` has no tool-calling loop. It routes each turn by a keyword
heuristic and calls `log_recruiter_lead` directly.

Layout:

- `wrappers.dfy` holds `Option` and `Result`.
- `text.dfy` holds ASCII `lower()` and `strip()`, the substring test, `any(...)`
  over keywords, and `join`.
- `json.dfy` holds JSON values with Python truthiness.
- `tools.dfy` (module `Tools`) models `tools.py`.
- `agent.dfy` (module `Agent`) models `agent.py`.

State that the source changes in place is kept in two classes:

- `Tools.ProfileStore` holds the profile cache and the file it loads from.
- `Tools.LeadLog` holds the CSV file, modelled as an optional sequence of
  lines: a header line, then one record per lead.

Everything the code receives from outside is a parameter:

- the lead the extraction call yields (`None` when the call or its JSON
  decoding fails);
- the chat model, a function from a message stack to reply content
  (`None` when the call fails);
- the timestamp;
- whether the file write succeeds.

## Model

| member | source | states |
|---|---|---|
| `Text.Lower` | tools.py:55 | `lower()` keeps the length, turns each capital A-Z into its lower-case letter (code point + 32), leaves no upper-case letter, and keeps every other character |
| `Text.Strip` | tools.py:55 | `strip()` leaves no whitespace at either end, never lengthens, and gives `""` exactly when the text is all whitespace |
| `Text.StripIsSlice` | tools.py:55 | `strip()` returns a slice `s[i..j]` of its input where everything before `i` and from `j` on is whitespace: only the two end runs are cut |
| `Text.AnyIn` | agent.py:170-172 | `any(k in s for k in words)` holds iff some keyword occurs in `s` at some offset |
| `Text.TrimStart` | tools.py:55 | the result is the suffix left after the maximal run of leading whitespace |
| `Text.TrimEnd` | tools.py:55 | the result is the prefix left after the maximal run of trailing whitespace |
| `Text.StripIdempotent` | tools.py:55 | stripping twice is stripping once |
| `Text.StripLowerCommute` | tools.py:55 | `lower()` and `strip()` commute, because lowering never creates or removes whitespace |
| `Text.NormalizeIdempotent` | tools.py:55 | normalising a key (`lower().strip()`) twice is normalising it once |
| `Text.JoinEmpty` | agent.py:160 | joining non-empty parts gives `""` exactly when there are no parts |
| `Tools.ProfileStore.Load` | tools.py:28-36 | the file is read only while the cache is empty; a cached profile is returned whatever the file now holds; a missing file is an error that leaves the cache empty |
| `Tools.ProfileStore.Refresh` | tools.py:39-43 | the cache is cleared and then repopulated from the file, so afterwards it equals the file; it fails exactly when the file is missing |
| `Tools.ProfileStore.GetProfileSection` | tools.py:46-72 | the empty name gives `{}` without loading; otherwise the section the resolved key names, or a load error |
| `Tools.ProfileStore.GetProjectDetails` | tools.py:75-87 | the empty name gives `None` without loading; otherwise the first project whose lower-cased name equals the lower-cased, stripped query |
| `Tools.Resolve` | tools.py:55-71 | a name resolves either to one of the seven section names the alias table targets, or to its own normalised key when that key is not an alias |
| `Tools.SectionOf` | tools.py:71-72 | the section the resolved key names, or `{}` when the profile lacks that key; so the result is always `{}` or one of the profile's sections |
| `Tools.AliasTargetIsNormal` | tools.py:57-69 | each section name the table resolves to is a non-empty lower-case word that the table maps to itself |
| `Tools.AliasTargetsAreFixed` | tools.py:57-69 | every alias target is itself a key of the table that maps to itself, and is already lower-case and stripped |
| `Tools.ResolveIdempotent` | tools.py:55-71 | resolving an already resolved name changes nothing |
| `Tools.ResolveCases` | tools.py:55-72 | a listed alias maps through the table; any other normalised key maps to itself; a key missing from the profile gives `{}`; a name and its resolution select the same section |
| `Tools.FindProject` | tools.py:84-87 | the loop with its early return yields exactly the first matching project, or `None` |
| `Tools.FirstMatchingIsFirst` | tools.py:84-87 | the result is `None` iff no project matches; otherwise it is a matching project with no match before it |
| `Tools.LookupByOwnName` | tools.py:75-87 | looking up a project by any capitalisation of its name, with any surrounding whitespace, returns that project's record unchanged, provided the name has no surrounding whitespace and is not shared by an earlier project |
| `Tools.MissingFrom` | tools.py:101-102 | a key is reported missing iff it is required and the lead lacks a non-empty value for it |
| `Tools.MissingFields` | tools.py:101-102 | at most the four required fields; a field is listed iff it is required and the lead lacks a non-empty value for it |
| `Tools.MissingFieldsInOrder` | tools.py:101-104 | the missing list is the absent fields among recruiter_name, company, role and contact, in that order |
| `Tools.LeadRow` | tools.py:108-122 | the record has the six header columns: the timestamp first, then each column's lead value, with `""` for an absent one (so `notes` defaults to `""`) |
| `Tools.LogResult` | tools.py:127-131 | the success result has exactly the keys status, path and timestamp |
| `Tools.Appended` | tools.py:117-125 | the new record is the last line; an existing file keeps all its earlier lines; a new file holds the header, then the record |
| `Tools.WellFormedHasOneHeader` | tools.py:117-125 | a log that is the header followed by records holds exactly one header |
| `Tools.AppendedLog` | tools.py:117-125 | appending writes the header only to a new file; the log stays well formed with a single header at the start; exactly one record is added after the earlier records, which are unchanged |
| `Tools.LeadLog.LogRecruiterLead` | tools.py:94-131 | it fails with the missing fields, in order, iff a required field is empty or absent, and then the file is unchanged; a failed write also leaves the file unchanged; on success the file is the old one with the lead's record appended, and the result has status "saved_locally" and the timestamp of that record |
| `Agent.RecordedReply` | agent.py:42-51 | the confirmation repeats the recorded name, company, role, contact and notes |
| `Agent.LooksLikeRecruiterMessage` | agent.py:167-172 | holds iff the lower-cased text contains one of hiring, recruiter, role, position, job or opening, and one of email, @, contact, reach or phone |
| `Agent.RecruiterCheckIgnoresCase` | agent.py:169 | the check gives the same answer on the lower-cased text |
| `Agent.HiringMessageIsRecruiter` | agent.py:167-172 | "I'm hiring for a Senior ML role, please reach me at hr@acme.com" is routed to recruiter mode |
| `Agent.HasMinimumLeadFields` | agent.py:209-213 | false for an absent lead; otherwise true iff recruiter_name, company, role and contact are all non-empty |
| `Agent.NotesDoNotMatter` | agent.py:213 | changing the notes never changes whether a lead is complete |
| `Agent.CompleteLeadHasNothingMissing` | agent.py:209-213 | a lead passes the agent's check iff log_recruiter_lead finds no missing field, so a complete lead is never refused for missing fields |
| `Agent.SectionNameIsResolved` | agent.py:126-155 | each section name the context asks for (education, experience, skills, projects) resolves to itself, so `get_profile_section` returns that key's value |
| `Agent.MakePart` | agent.py:128-158 | each group makes its own kind of block; education and experience list every entry of the section; skills keeps the section; projects lists the first five entries (`projs[:5]`): a prefix of the section, of length min(5, its size) |
| `Agent.BlockOf` | agent.py:125-158 | a group adds one block iff the question hits it and its section is truthy, and that block is the one built from the section; otherwise nothing |
| `Agent.Block` | agent.py:125-158 | a group adds one block iff the question hits it and the profile's section for it is truthy; that block is built from that section and belongs to the group |
| `Agent.ContextParts` | agent.py:120-160 | at most four blocks; none when no keyword group matches; any Projects block lists at most five projects |
| `Agent.ContextPartsInGroupOrder` | agent.py:125-158 | the blocks come in the order education, experience, skills, projects |
| `Agent.BlockInContextParts` | agent.py:125-158 | the context holds a block of a group iff the question hits the group and the group's section is truthy, and that block is the one built from the section |
| `Agent.HitGivesContext` | agent.py:125-160 | a hit group with a truthy section makes the joined context non-empty |
| `Agent.Show` | agent.py:128-157 | a string value is shown verbatim; the shown text is empty only for the empty string (an absent value shows as `None`) |
| `Agent.ShowList` | agent.py:148-151 | an absent key gives `""` (the default `[]`); every listed entry appears in the joined text |
| `Agent.BulletLine` | agent.py:128-140 | an education or experience line is a `- ` bullet holding the three fields it shows (degree, institution and period; or title, company and period) |
| `Agent.ProjectLine` | agent.py:157 | the line is a `- ` bullet holding the name and description |
| `Agent.Render` | agent.py:125-158 | every block's text is non-empty (it starts with its heading) |
| `Agent.ContextTextEmpty` | agent.py:160 | the joined context is `""` exactly when no block was collected |
| `Agent.ProfileContext` | agent.py:120-160 | the context fails iff a keyword group is hit and there is no profile; a non-empty context needs a group hit and a loaded profile; a hit group whose section is truthy gives a non-empty context |
| `Agent.NoKeywordNoContext` | agent.py:120-160 | a question that hits no keyword group gets `""` whatever the profile holds; a non-empty context needs a group hit and a loaded profile |
| `Agent.AddBlock` | agent.py:125-158 | one keyword group: no lookup when the group is not hit; otherwise a load error, or the group's block appended when its section is non-empty |
| `Agent.CollectBlocks` | agent.py:122-158 | the blocks of the profile the store would load, in group order; it fails iff a group is hit and there is no profile; the profile is loaded only when some group is hit |
| `Agent.BuildProfileContext` | agent.py:120-160 | the result is the joined blocks of the profile the store would load; the profile is loaded only when some group matches, and a missing file is then an error |
| `Agent.BuildMessages` | agent.py:101-105 | the loop builds one system message, the kept history entries, then the user's message |
| `Agent.KeepDialogue` | agent.py:101-105 | the kept history is no longer than the history, and holds only user and assistant entries |
| `Agent.MessageStack` | agent.py:101-105 | the stack starts with the system message and ends with the user's message; no other entry is a system message; it holds at most the whole history besides |
| `Agent.KeepDialogueMembers` | agent.py:102-104 | an entry is kept iff it is in the history and its role is user or assistant |
| `Agent.KeepDialogueAppend` | agent.py:102-104 | filtering keeps history order: the kept entries of `a + b` are those of `a`, then those of `b` |
| `Agent.KeepDialogueOfDialogue` | agent.py:102-104 | a history of user and assistant turns only is passed on whole |
| `Agent.MessageStackShape` | agent.py:101-105 | the stack starts with the one system message and ends with the user's message; everything between is a user or assistant entry of the history; its length is 2 plus the number of kept entries |
| `Agent.AnswerText` | agent.py:109-117 | the answer is never empty; non-blank reply content is returned stripped; blank content gives the rephrase request; a failed model call gives the Ollama error text |
| `Agent.Answer` | agent.py:94-117 | an answer is never empty; it fails iff a keyword group is hit and there is no profile |
| `Agent.AnswerWithProfile` | agent.py:94-117 | the answer comes from the model's reply to the message stack built over the profile context; it is never empty; the only failure is a missing profile file when a keyword group needs it; the cache afterwards holds the loaded profile when a group was hit, and is unchanged otherwise |
| `Agent.Merge` | agent.py:41 | `{**lead, **log_result}` keeps every key of both, and the log result's values win |
| `Agent.LoggedPayloadShape` | agent.py:37-41 | a logged payload holds the four required fields as given, status "saved_locally", and the timestamp of the written record |
| `Agent.RunAgent` | agent.py:24-91 | a non-recruiter message gets the Q&A answer with no lead and leaves the log untouched; in recruiter mode: an incomplete or absent lead gets the follow-up reply; a complete lead is logged with payload = lead merged with the log result; a failed write gives the apology; a logging failure can only come from the write, never from validation; a lead is logged only in recruiter mode with a complete lead; in Q&A mode the cache afterwards holds the loaded profile when a keyword group was hit, and is unchanged otherwise; recruiter mode never touches the cache |

## Left out

- The language-model calls and the JSON decoding of the extraction reply (agent.py:108, agent.py:195-206) are parameters. The extracted lead arrives as an optional string map.
- A decoded extraction value that is truthy but not an object makes Python raise outside the `try` (agent.py:37, agent.py:209-213). That case is not modelled. A falsy decoded value (`0`, `""`, `[]`, `null`, `false`) fails `if lead` and gets the follow-up reply (agent.py:70-83); the model covers that case as the absent lead.
- Lead values other than strings are not modelled. A value is treated as truthy when it is a non-empty string.
- The clock (`datetime.utcnow()`, tools.py:106) is a timestamp parameter.
- File-system mechanics are not modelled: the leads directory, `Path.exists`, `open`, and CSV quoting. The CSV file is a sequence of lines. A failed write is a flag, and it leaves the file unchanged. Partial writes are not modelled.
- The profile file is either present, holding a JSON object, or missing. Malformed JSON in it is not modelled.
- The text of the missing-fields `ValueError` is not modelled. Its list of missing fields is.
- `lower()` and `strip()` are ASCII approximations of Python's Unicode operations. `strip()` removes the ASCII characters for which `str.isspace()` holds.
- Some profile sections have a different shape from profile.json's: education, experience or projects that are not lists, skills that are not an object, a project name that is not a string. Python raises on most of these: iterating a non-empty object or string yields keys or characters, and `e.get` then raises. The model treats such a section as having no entries, and such a name as `""`. For example, an `education` that is a non-empty object raises outside any `try` (agent.py:99, 129), but the model shows a bare `Education:` heading.
- `Tools.FindProject`: a project entry that is not an object makes `p.get` raise `AttributeError` in Python (tools.py:84-85). The model gives it the name `""` and the search goes on. With projects `["x", {"name": "A"}]` and query `"a"`, Python raises and the model returns the second project.
- `Agent.BulletLine`, `Agent.ProjectLine`: an education, experience or project entry that is not an object makes `e.get` or `p.get` raise in Python (agent.py:129, 138, 157). The model shows its fields as `None`.
- `Agent.ShowList`: the value under a skills key is joined by `', '.join(...)` (agent.py:148-151). In Python, that raises `TypeError` on a list with a non-string item, and on `null`, a number or a bool. It joins the characters of a string and the keys of an object. The model shows a non-string list item as text, and gives `""` for every value that is not a list. With `{"languages": {"py": 1}}`, Python shows `py` and the model shows nothing.
- `Agent.Answer`: in Q&A mode, the three cases above (sections of another shape, entries that are not objects, skills values that Python cannot join) turn an exception that Python would raise into an `Ok` answer. The project lookup case does not arise here: agent.py never calls `get_project_details`.
- Lists and objects shown inside a context line are printed as a placeholder, not with Python's `repr`. Floating-point numbers are not modelled.
- A history entry without `role` or `content` raises `KeyError` in Python. That case is not modelled: entries always carry both.
- `Tools.AppendedLog`: the single-header guarantee assumes the file, if it exists, was written only by this function. `log_recruiter_lead` does not check this, and neither does the model's `LogRecruiterLead`.
- app.py, the Streamlit front end, is not part of this model.
