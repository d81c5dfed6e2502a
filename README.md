# n8n workflow validator, modelled in Dafny

This project models the CI validator of the `n8n_utils` package. It is the
part that decides whether an n8n workflow document is well formed.

An n8n workflow is a JSON object with:

- an optional string `name`;
- a `nodes` array, where each node has `id`, `name`, `type`, `typeVersion`,
  a two-number `position` and a `parameters` object;
- a `connections` object.

The validator checks a decoded document against the JSON Schema
(draft-07) `N8N_WORKFLOW_SCHEMA`. It reports at most one error per file. For
a whole directory, it collects the files that have errors into a map from
file path to error list.

The project has these modules:

- `JsonValues` (`json_values.dfy`): decoded JSON values, the draft-07
  `type` test, and instance paths (`At`). It also covers the way the
  validator prints a path: tokens joined with `.`, indices in decimal.
- `Draft7` (`draft7.dfy`): an evaluator for the draft-07 keywords the
  schema uses: `type`, `items` with one subschema, `minItems`, `maxItems`,
  `required` and `properties`. `Errors(s, x, path)` lists every violation
  of `s` by `x`, each with its constraint and its instance path. The
  generic facts about the evaluator are proved here:
  - every reported violation really occurs at its path (`ErrorsOccur`);
  - the empty-result characterisations of each keyword;
  - keys a schema does not name are ignored.
- `WorkflowSchema` (`workflow_schema.dfy`): the schema itself, written as a
  constant, and `IsWorkflow`, an independent statement of what a conforming
  document is. `WorkflowConforms` proves that the evaluator finds nothing
  exactly when `IsWorkflow` holds. The other lemmas pin down which
  violation is produced for typical defects.
- `Validator` (`validator.dfy`): `validate_workflow`,
  `validate_workflow_file` and the filtering loop of
  `validate_all_workflows`. The loop is a method; its invariant ties the
  partial result to the function `Aggregate`.
- `WorkflowExamples` (`examples_workflows.dfy`): the documents of the unit
  tests and the sample workflow of the visualization example, with what the
  validator says about each.

Where the library's behaviour is not visible in the repository, the model
takes it as a parameter:

- `select` stands for `best_match`, which picks one violation out of all of
  them.
- `describe` stands for the library's message for a violation. It is given
  the violated constraint and the value that breaks it, which an error
  carries along with the violation's path.

File reading and JSON decoding are replaced by the datatype `Loaded`,
which is either the decoded document or one of the two failures.

### What the validator does not check

- A file gets at most one error. `validate` (validator.py:62) raises a
  single `ValidationError`, the violation that the library's `best_match`
  picks out of all of them, and `validate_workflow` turns it into a list of
  one entry. `ValidateWorkflow` ensures `|r| <= 1`.
- There is no check of the connections against the nodes and no check for
  duplicate node ids. `connections` only has to be an object, and node ids
  are never compared. This is why the sample workflow is accepted, even
  though its connections include a source `4-1` that is not a node id
  (`SampleWorkflowAccepted`, `ConnectionsContentIgnored`).
- `position` is a required node key.
- `typeVersion` accepts any string, not only numeric strings.
- A node `id` may be the empty string; the schema only asks for a string.

## Model

| member | source | states |
|---|---|---|
| JsonValues.HasAnyTypeAgrees | lib/n8n_utils/ci/validator.py:32 | a `type` list with several entries treats two values of the same JSON types alike |
| JsonValues.Decimal | lib/n8n_utils/ci/validator.py:65 | an index in a printed path is a non-empty string of decimal digits |
| JsonValues.DecimalRoundTrip | lib/n8n_utils/ci/validator.py:65 | the printed index reads back as the same index, so printing a path loses no index |
| JsonValues.JoinPathShowsTokens | lib/n8n_utils/ci/validator.py:65 | every step of the path appears in the `.`-joined text |
| Draft7.Errors | lib/n8n_utils/ci/validator.py:62 | the list of violations `validate` chooses from: every violation of a schema by an instance, with its instance path, keyword by keyword in the schema's order (no contract of its own; `ErrorsOccur` and the `...Empty` lemmas state what it means) |
| Draft7.KeywordErrors | lib/n8n_utils/ci/validator.py:19-43 | the violations of one keyword; a keyword for another JSON type than the instance's finds none (no contract of its own; `KeywordErrorsOccur` states its soundness) |
| Draft7.ErrorsOccur | lib/n8n_utils/ci/validator.py:17-45 | every violation the evaluator reports lies at a path that exists in the document, and the value there breaks the reported constraint |
| Draft7.KeywordsErrorsOccur | lib/n8n_utils/ci/validator.py:17-45 | the same holds for the violations of the keywords of a schema from a given keyword on |
| Draft7.KeywordErrorsOccur | lib/n8n_utils/ci/validator.py:19-20 | the same holds for each single keyword (`type`, `items`, `minItems`, `maxItems`, `required`, `properties`) |
| Draft7.RequiredErrorsOccur | lib/n8n_utils/ci/validator.py:20 | a reported missing property is absent from the object at the reported path |
| Draft7.PropertiesErrorsOccur | lib/n8n_utils/ci/validator.py:21 | violations inside listed properties occur below those properties |
| Draft7.ItemsErrorsOccur | lib/n8n_utils/ci/validator.py:25 | violations inside array elements occur at those elements' indices |
| Draft7.KeywordsErrorsEmpty | lib/n8n_utils/ci/validator.py:17-45 | a schema has no violation exactly when each of its keywords has none |
| Draft7.RequiredErrorsEmpty | lib/n8n_utils/ci/validator.py:20 | `required` passes exactly when every listed name is a key of the object |
| Draft7.PropertiesErrorsEmpty | lib/n8n_utils/ci/validator.py:21 | `properties` passes exactly when every listed property that is present passes its subschema; absent ones are not checked |
| Draft7.ItemsErrorsEmpty | lib/n8n_utils/ci/validator.py:25 | `items` passes exactly when every element passes the item schema |
| Draft7.RequiredErrorsReport | lib/n8n_utils/ci/validator.py:20 | a required name the object lacks is reported as missing, at the object |
| Draft7.RequiredErrorsSameKeys | lib/n8n_utils/ci/validator.py:20 | `required` depends only on which keys are present, not on their values |
| Draft7.RequiredErrorsOneMissing | lib/n8n_utils/ci/validator.py:27 | with distinct names and exactly one absent, `required` reports exactly that name |
| Draft7.ItemsErrorsSingle | lib/n8n_utils/ci/validator.py:25 | when every other element passes, the `items` violations are exactly those of the one remaining element |
| Draft7.PropertiesErrorsReplaceKey | lib/n8n_utils/ci/validator.py:28-40 | after a listed property gets a new value in an otherwise passing object, the violations are exactly those of the new value against that property's subschema |
| Draft7.PropertiesErrorsOtherKey | lib/n8n_utils/ci/validator.py:28-40 | changing a property the keyword does not list leaves its violations unchanged |
| Draft7.PropertiesErrorsRemoveKey | lib/n8n_utils/ci/validator.py:28-40 | removing a property never adds a `properties` violation |
| Draft7.UnlistedKeyIgnored | lib/n8n_utils/ci/validator.py:17-45 | a key that no `required` or `properties` keyword names can be added with any value and the violations stay the same (no `additionalProperties`) |
| Draft7.KeywordsUnlistedKeyIgnored | lib/n8n_utils/ci/validator.py:17-45 | the same, keyword by keyword |
| Draft7.RequiredUnlistedKeyIgnored | lib/n8n_utils/ci/validator.py:20 | adding a key that `required` does not name leaves its violations unchanged |
| Draft7.PropertiesUnlistedKeyIgnored | lib/n8n_utils/ci/validator.py:21 | adding a key that `properties` does not list leaves its violations unchanged |
| WorkflowSchema.N8nWorkflowSchema | lib/n8n_utils/ci/validator.py:17-45 | the schema constant: an object requiring `nodes` and `connections`, with a string `name`, an array `nodes` of `NodeSchema` items and an object `connections` (a constant; `WorkflowConforms` states what it accepts) |
| WorkflowSchema.NodeSchema | lib/n8n_utils/ci/validator.py:25-41 | the node item schema: an object requiring the six node keys, with their six property schemas (a constant; `NodeConforms` states what it accepts) |
| WorkflowSchema.PositionSchema | lib/n8n_utils/ci/validator.py:33-38 | an array of numbers with at least and at most two items (a constant; `PositionConforms` states what it accepts) |
| WorkflowSchema.IsWorkflow | lib/n8n_utils/ci/validator.py:17-45 | the reference statement of a conforming document, written without the evaluator: an object with a string `name` if present, an array `nodes` whose every element is an object with the six keys of their declared types, and an object `connections` |
| WorkflowSchema.TypeErrorsEmpty | lib/n8n_utils/ci/validator.py:22 | a schema with only `type` passes exactly when the value has one of the listed types |
| WorkflowSchema.PositionConforms | lib/n8n_utils/ci/validator.py:33-38 | a position passes exactly when it is an array of exactly two numbers |
| WorkflowSchema.NodePropertiesConform | lib/n8n_utils/ci/validator.py:28-40 | a node with all six keys passes `properties` exactly when `id`, `name` and `type` are strings, `typeVersion` is a number or a string, `position` is a position and `parameters` is an object |
| WorkflowSchema.NodeErrorsSplit | lib/n8n_utils/ci/validator.py:25-41 | a node's violations are those of its `type`, then its `required`, then its `properties` keyword |
| WorkflowSchema.NodeKeysPresent | lib/n8n_utils/ci/validator.py:27 | an object holds every listed node key exactly when it holds each of the six |
| WorkflowSchema.NodeRequiredEmpty | lib/n8n_utils/ci/validator.py:27 | a node's `required` passes exactly when all six keys are present |
| WorkflowSchema.NodeConforms | lib/n8n_utils/ci/validator.py:25-41 | a value passes the node schema exactly when it is an object with the six keys, each of its declared type |
| WorkflowSchema.NodesConform | lib/n8n_utils/ci/validator.py:23-42 | `nodes` passes exactly when it is an array of nodes |
| WorkflowSchema.WorkflowErrorsSplit | lib/n8n_utils/ci/validator.py:19-44 | for an object, the violations are those of `required` followed by those of `name`, `nodes` and `connections` |
| WorkflowSchema.WorkflowConforms | lib/n8n_utils/ci/validator.py:17-45 | the schema finds no violation exactly when the document is an object with the two required keys, a string `name` if present, an array of nodes and an object `connections` |
| WorkflowSchema.NotObjectReported | lib/n8n_utils/ci/validator.py:19 | a document that is not an object draws exactly one violation: wrong type, at the top |
| WorkflowSchema.MissingTopLevelReported | lib/n8n_utils/ci/validator.py:20 | a document without `nodes` or `connections` draws a violation naming the missing key, at the top |
| WorkflowSchema.OneBadNodeReported | lib/n8n_utils/ci/validator.py:23-42 | when only node `i` is wrong, the document's violations are exactly that node's, located below `nodes.i` |
| WorkflowSchema.NodeKeysDistinct | lib/n8n_utils/ci/validator.py:27 | the six required node keys are pairwise distinct |
| WorkflowSchema.NodeMissingKeyReported | lib/n8n_utils/ci/validator.py:27 | removing one required key from a valid node draws exactly one violation: that key is missing, at the node |
| WorkflowSchema.NodePositionReported | lib/n8n_utils/ci/validator.py:33-38 | replacing a valid node's position with any value draws exactly the violations of that value as a position |
| WorkflowSchema.PositionNotArrayReported | lib/n8n_utils/ci/validator.py:34 | a position that is not an array draws exactly one violation: wrong type, expected array |
| WorkflowSchema.ExtraDocumentKeyIgnored | lib/n8n_utils/ci/validator.py:21-44 | a key other than `name`, `nodes` and `connections` can be added to a document with any value and the violations stay the same |
| WorkflowSchema.ExtraNodeKeyIgnored | lib/n8n_utils/ci/validator.py:28-40 | a key outside the six node keys can be added to a node with any value and the violations stay the same |
| WorkflowSchema.ConnectionsContentIgnored | lib/n8n_utils/ci/validator.py:43 | what `connections` holds, including edges to ids that are not nodes, changes nothing |
| Validator.ValidateWorkflow | lib/n8n_utils/ci/validator.py:51-65 | at most one error; no error exactly when the document is a workflow; the error is a schema violation the evaluator finds, it really occurs in the document, and the value it carries is the one at its path |
| Validator.Render | lib/n8n_utils/ci/validator.py:65-86 | the text of a schema violation, and only it, starts with `Validation error: `; a JSON error starts with `Invalid JSON in `, a read error with `Error reading `, and both name the file and keep the cause's text |
| JsonValues.JoinPath | lib/n8n_utils/ci/validator.py:65 | the path as `'.'.join(map(str, e.path))` prints it, the empty path as the empty string (no contract of its own; `JoinPathShowsTokens` states that every step can be read in it) |
| JsonValues.TokenText | lib/n8n_utils/ci/validator.py:65 | `str` of one path step: a key as itself, an index in decimal (no contract of its own; `Decimal` and `DecimalRoundTrip` state the index case) |
| Validator.RenderShowsPath | lib/n8n_utils/ci/validator.py:65 | every step of a violation's path can be read in the error text, whatever the message says |
| Validator.NodeMissingKeyRejected | lib/n8n_utils/ci/validator.py:61-65 | a workflow whose node `i` loses a required key gets exactly one error: that key is missing, at `nodes.i`, carrying the node as it now is |
| Validator.PositionNotArrayRejected | lib/n8n_utils/ci/validator.py:61-65 | a workflow whose node `i` has a position that is not an array gets exactly one error, a type mismatch at `nodes.i.position` carrying that value, and its text contains `position` |
| Validator.FileErrors | lib/n8n_utils/ci/validator.py:67-86 | at most one error; none exactly when the file was read, decoded and is a workflow; a read failure or a decoding failure gives exactly one error of that kind naming the file and keeping the cause's text; a decoded document gets exactly what `ValidateWorkflow` gives it |
| Validator.Aggregate | lib/n8n_utils/ci/validator.py:112-117 | the dictionary the loop builds, as a fold over the files in order: a file with errors is entered under its path, a later entry replacing an earlier one (no contract of its own; the four `Aggregate...` lemmas below state its properties) |
| Validator.ValidateAll | lib/n8n_utils/ci/validator.py:111-119 | the loop's result is the fold `Aggregate` over the files in order |
| Validator.AggregateKeys | lib/n8n_utils/ci/validator.py:114-117 | a path is a key of the result exactly when some file with that path has errors |
| Validator.AggregateValues | lib/n8n_utils/ci/validator.py:114-117 | every stored list is non-empty and is the error list of a file with that path |
| Validator.AggregateStoresFile | lib/n8n_utils/ci/validator.py:114-117 | when paths are distinct, each file with errors is stored under its path with exactly its list |
| Validator.AggregateViolationsOccur | lib/n8n_utils/ci/validator.py:84-117 | every schema violation stored under a path really occurs in the decoded document of a file with that path |
| Validator.AggregateEmptyIffAllValid | lib/n8n_utils/ci/validator.py:140-144 | the result is empty exactly when every file was read, decoded and is a workflow |
| WorkflowExamples.TestWorkflowAccepted | lib/n8n_utils/tests/test_workflow_validation.py:53-56 | the test document draws no error |
| WorkflowExamples.TestWithoutIdRejected | lib/n8n_utils/tests/test_workflow_validation.py:58-66 | the test document without the first node's `id` draws exactly one error: `id` missing, at `nodes.0`, carrying the node without `id` |
| WorkflowExamples.TestStringPositionRejected | lib/n8n_utils/tests/test_workflow_validation.py:68-76 | the test document with a string position draws exactly one error, a type mismatch at `nodes.0.position` carrying the string, whose text contains `position` |
| WorkflowExamples.TestWithoutNodesRejected | lib/n8n_utils/ci/validator.py:20 | the test document without `nodes` is rejected, and `nodes` missing is among its violations |
| WorkflowExamples.SampleNode | lib/examples/visualize_example.py:19-86 | each node of the sample workflow has the node shape |
| WorkflowExamples.SampleNodesAreNodes | lib/examples/visualize_example.py:18-87 | all six sample nodes are nodes |
| WorkflowExamples.SampleWorkflowIsWorkflow | lib/examples/visualize_example.py:14-145 | the sample workflow is a workflow |
| WorkflowExamples.SampleWorkflowAccepted | lib/examples/visualize_example.py:88-144 | the validator accepts the sample workflow, although its connections name the source `4-1`, which is not a node |

## Left out

- Validator.ValidateWorkflow: which violation is reported when there are several is left to the `select` parameter. The library's `best_match` heuristic is not modelled; the model only proves that the reported violation is one that the schema finds and that really occurs.
- Validator.Render: the wording of the library's message is the parameter `describe`, a function of the violated constraint and the value that breaks it. Only the fixed text around it and the path are modelled. For this reason the missing-`id` test's check that the text contains `id`, which the library's message supplies, is stated through the violation's kind (`MissingProperty("id")`), not through the text.
- Reading files and decoding JSON (`open`, `json.load`) are replaced by the datatype `Loaded`. Any exception while reading, including a decoding error that is not a `JSONDecodeError`, is `Unreadable`. The text of the exceptions is an opaque `detail` string.
- `find_workflow_files`: the directory walk (`glob("**/*.json")`) is not modelled. `ValidateAll` takes the list of found files as a parameter.
- `main`: argument parsing, the directory existence check, printing, the error count and exit codes are input/output. Only the fact behind its success message is kept (`AggregateEmptyIffAllValid`).
- The `ValidationError` class of the module is never raised by the validator and has no counterpart.
- Insertion order: the order of the keys of the result dictionary and of the keys of JSON objects is not modelled; maps stand for both.
- Numbers: values are mathematical integers and reals. NaN, infinities and floating-point rounding are not modelled.
- The draft-07 keywords that the schema does not use (including the array form of `items` and `additionalProperties`) are not in the evaluator. `$schema` is only the draft marker and is not modelled.
- Graph checks (connections pointing to real nodes, cycles, layout) are not part of the validator, so they are not part of this model.
- `lib/examples/visualize_example.py` apart from its sample workflow, `lib/setup.py` and `lib/n8n_utils/ci/__init__.py` are packaging and demonstration code and are not part of this model.
