# troposphere (pydantic edition): the document-assembly layer in Dafny

This project models the core of troposphere, a Python object model for
AWS CloudFormation templates built on pydantic. The model covers five areas:

- **The recursive normaliser `encode_to_dict`** turns a graph of entities,
  helpers, lists and dicts into plain nested data (`Encode`).
- **The intrinsic-function helpers** (`Ref`, `GetAtt`, `Cidr`, `Sub`,
  `Equals`, `If`, `Join`, `Split`, `Select`, `Export`, …) each hold one
  `data` payload (`Helpers`). `Ref.validate` and `Export.validate` turn
  strings and dicts into helpers.
- **Entities (`BaseAWSObject` and its subclasses)** have a title rule, a
  render shape and references. A resource lifts its attributes out of
  `Properties` and adds `Type` (`Entities`).
- **Validators:**
  - `Parameter`, with its cross-field validators (`Parameters`);
  - `Output` (`Outputs`);
  - `WaitCondition`, with its CreationPolicy root validator, and
    `WaitConditionHandle` (`CloudFormation`).
- **The `Template` container (`Templates`)** is a Dafny `class` whose dict
  fields the methods update in place. Its operations are the capped
  `add_*` insertions through `_update`, `add_mapping`, `add_rule`,
  `add_condition` and `get_or_add_parameter`. The
  `AWS::CloudFormation::Interface` metadata edits and the Globals/Transform
  validators are part of it too. `to_dict` renders the document.

Python dicts keep insertion order, so every dict is an association list
`seq<(string, T)>` (`OrderedDict`):

- `Put` is `d[k] = v`: an existing key keeps its place, a new key goes last.
- `Merge` is `d.update(e)`.

Values are a `Value` tree. It has scalars, lists and dicts. It also has
`Obj(origin, payload)` for an object that renders itself: a helper's
`data`, an entity's `dict()` output, or a foreign object's `JSONrepr()`.

pydantic validation is modelled as follows:

- Each validator returns the list of errors for each field, in field order.
- A `pre=True` root validator stops at its first error.
- A successful construction yields an `Entity`: a title, a kind, and the
  fields in declaration order.
- Registration with a Template (`template=` / `add_to_template`) is the
  `Register` method.
- Each `Template` method is proved against a pure function of the old state
  (`InsertAll`, `MappingUpdate`, `AddToGroup`, `SetLabel`, …). The
  properties the source promises are lemmas about those functions.

Two behaviours of `_update` and the `add_*` methods are worth stating
plainly:

- **Partial insertion of a list.** `_update` applied to a list keeps the
  items before a duplicate inserted. So a failed call can be a partial
  success (`InsertAll`).
- **The cap is checked once per call.** The `add_*` cap is checked once per
  call, not once per item, so a list can take a collection past its cap
  (`BatchGrowsByItsLength`).

Two defects of the code are listed under "## Findings". For each, the
model has a member that follows the code as written and a corrected one;
the rest of the model uses the corrected one (see "## Left out").

## Model

| member | source | states |
|---|---|---|
| OrderedDict.Put | troposphere/__init__.py:349 | `d[k] = v`: an existing key stays where it is and a new key goes last; `k` then maps to `v`; every other key keeps its value; keys stay distinct |
| OrderedDict.Merge | troposphere/__init__.py:364 | `d.update(e)`: old keys survive; the keys are those of either dict; keys of `e` map to `e`'s values, all others keep `d`'s; keys stay distinct |
| Encode.Normalize | troposphere/__init__.py:94-116 | the result is plain data; a list stays a list of the same length; a dict stays a dict with the same keys in the same order; a scalar is returned unchanged |
| Encode.NormalizeDictAt | troposphere/__init__.py:107-111 | pair `i` of a normalised dict is the original key with its value normalised |
| Encode.PlainIsFixedPoint | troposphere/__init__.py:94-116 | a tree with no object left in it is a fixed point of normalisation |
| Encode.NormalizeIdempotent | troposphere/__init__.py:98-101 | normalising twice equals normalising once, so rendering an object's already-normalised `to_dict()` again changes nothing |
| Encode.NormalizeListAppend | troposphere/__init__.py:102-106 | list order is preserved: normalisation distributes over list concatenation |
| Encode.NormalizeDictAppend | troposphere/__init__.py:107-111 | dict order is preserved: normalisation distributes over concatenation of pairs |
| Encode.NormalizeDictGet | troposphere/__init__.py:107-111 | a key is in the normalised dict exactly when it is in the original, and holds the original value normalised |
| Encode.NormalizeListAt | troposphere/__init__.py:102-106 | element `i` of a normalised list is the original element normalised |
| Helpers.Arguments | troposphere/__init__.py:715-888 | a Ref never holds an entity, only its title; Equals, FindInMap, GetAtt, If and Not hold a non-empty list whose first argument is never an entity (Equals: exactly two arguments, neither an entity) |
| Helpers.Data | troposphere/__init__.py:715-888 | every helper but the generic one stores a one-key dict `{tag: arguments}`; the generic one stores an entity argument as its title and any other argument unchanged |
| Helpers.HelperEquals | troposphere/__init__.py:231-235 | a helper equals itself and its own rendered data |
| Helpers.WireForm | troposphere/__init__.py:715-888 | every helper except the generic fallback renders as a plain single-key dict keyed by its function tag |
| Helpers.HelperRendersAsData | troposphere/__init__.py:220-222 | a helper renders as its `data` normalised |
| Helpers.RefFromEntityOrTitle | troposphere/__init__.py:840-842 | `Ref(entity)` and `Ref(entity.title)` carry the same data `{"Ref": title}` |
| Helpers.CidrDropsFalsyBits | troposphere/__init__.py:749-751 | `cidr_bits` is a third argument exactly when it is given and non-zero; the first two arguments are always the block and the count |
| Helpers.SubCollapses | troposphere/__init__.py:884-888 | `Sub` is the bare input string exactly when there are no substitution values |
| Helpers.SubValuesEmpty | troposphere/__init__.py:885-887 | the merged substitution values are empty exactly when there are no keyword arguments and `dict_values` is missing or empty |
| Helpers.SubValuesOverride | troposphere/__init__.py:886-887 | `dict_values` override keyword arguments key by key, and other keys keep the keyword value |
| Helpers.ValidateRef | troposphere/__init__.py:844-853 | accepted exactly for a Ref, a string, or a dict whose "Ref" entry is a string; a Ref is returned as is, a string gives the Ref to it, a dict the Ref to its "Ref" entry; otherwise a "string or Ref required" TypeError |
| Helpers.ValidateExport | troposphere/__init__.py:658-667 | accepted exactly for an Export, a string, or a dict whose "Name" entry is a string; an Export is returned as is, a string gives the Export of it, a dict the Export of its "Name" entry; otherwise a "string or Export required" TypeError |
| Helpers.ValidateRefForms | troposphere/__init__.py:849-852 | any dict whose "Ref" entry is `name`, wherever it sits and whatever else the dict holds, validates to the same Ref as `name` |
| Helpers.RefEqualsWireForm | troposphere/__init__.py:231-235 | a Ref compares equal to its rendered form `{"Ref": name}` |
| Entities.TitleErrors | troposphere/__init__.py:133 | no error exactly when the title is one or more ASCII letters or digits and within the optional length bound; at most one error |
| Entities.TrailingNewlineTitle | troposphere/__init__.py:133 | the pattern as `re.match` applies it accepts "Foo\n", which the intended rule refuses |
| Entities.Present | troposphere/__init__.py:201 | `exclude_none`: only set fields are kept, each with its value, and keys stay distinct |
| Entities.PresentAppend | troposphere/__init__.py:201 | dropping unset fields works field by field, so it distributes over concatenation |
| Entities.Without | troposphere/__init__.py:189-191 | `data.pop(attr)`: the listed keys are gone and every other key keeps its value |
| Entities.Lifted | troposphere/__init__.py:188-191 | the lifted attributes are exactly the listed keys present in the body, each with its body value, without repeats |
| Entities.ToDict | troposphere/__init__.py:161-201 | `to_dict` yields a dict; an entity without DICT_NAME renders as plain data; a resource renders "Properties" first and "Type" (added at line 946) last |
| Entities.FlatShape | troposphere/__init__.py:187-201 | an entity without DICT_NAME renders as plain data holding exactly its set fields, each normalised; `title` and `template` never appear |
| Entities.ResourceShape | troposphere/__init__.py:187-192 | a resource renders "Properties" first and "Type" (`RESOURCE_TYPE`, added at line 946) last; each set attribute sits beside "Properties" and not inside it; every other set field sits inside it |
| Entities.Ref | troposphere/__init__.py:949-951 | `ref()` renders as `{"Ref": title}` |
| Entities.GetAtt | troposphere/__init__.py:921-923 | `get_att(name)` renders as `{"Fn::GetAtt": [title, name]}` |
| Entities.RefFormsAgree | troposphere/__init__.py:279-281 | `Ref(title)`, `Ref(entity)` and `entity.ref()` render identically |
| Parameters.SplitOn | troposphere/__init__.py:615 | `str.split(",")`: at least one piece, no piece contains the separator, and joining the pieces gives back the input |
| Parameters.DefaultErrors | troposphere/__init__.py:608-621 | the Default check yields no error or exactly one type-mismatch error naming the Type |
| Parameters.DefaultErrorsIff | troposphere/__init__.py:608-621 | no error exactly when the Default fits the Type: a string for String and list types, not a string for Number, and every comma-separated piece parses as a float for `List<Number>` |
| Parameters.CheckDefaultAsWritten | troposphere/__init__.py:592-621 | as written, the validator returns `None` whenever it accepts, so the accepted Default is not kept |
| Parameters.CheckDefault | troposphere/__init__.py:592-621 | as intended, an accepted Default is kept, and it is accepted exactly when the as-written validator accepts |
| Parameters.ParameterErrors | troposphere/__init__.py:573-643 | a Parameter has no errors exactly when its rules hold: the title rule and the 255 bound; MinValue/MaxValue only for Number; AllowedPattern/MinLength/MaxLength only for String; positive lengths; a Default that fits the Type |
| Parameters.ParameterFields | troposphere/__init__.py:574-585 | the fields are the declared names in order, each holding its keyword argument: Type, AllowedPattern, AllowedValues (the literals as a list), ConstraintDescription, Default (as given to it), Description, MaxLength, MaxValue, MinLength, MinValue, NoEcho |
| Parameters.ParameterFieldValues | troposphere/__init__.py:574-585 | looked up by name, every field holds the value at its position; Type is the given Type and Default is the given Default or unset |
| Parameters.ValidateParameter | troposphere/__init__.py:570-643 | construction succeeds exactly when there are no field errors, and otherwise reports all of them; the entity is a well-formed Parameter with the given title whose fields are `ParameterFields` of the input: every keyword argument stored under its name, Default unset when none is given |
| Parameters.TitleLengthBoundary | troposphere/__init__.py:573 | a Parameter title of 255 characters passes and one of 256 fails with the length error |
| Parameters.ParameterEntityAsWritten | troposphere/__init__.py:592-621 | the entity the code builds is a well-formed Parameter with the given title and Type, and no Default whatever was given |
| Parameters.AsWrittenDropsDefault | troposphere/__init__.py:592-621 | as written, no Parameter renders a "Default" entry |
| Parameters.ValidatedKeepsDefault | troposphere/__init__.py:592-621 | as intended, an accepted Default renders under "Default" as given |
| Parameters.ExampleParameterValid | example.py:9-15 | the example's String parameter validates |
| Parameters.DefaultLostAsWritten | example.py:9-15 | for the example's parameter the as-written validator drops `"foobar"` and the template lacks its Default; the corrected one keeps it |
| Parameters.ExampleDefaultRendered | example.py:9-15 | the example's parameter renders without "Default" as written and with `"Default": "foobar"` as intended |
| Outputs.ValidateOutput | troposphere/__init__.py:673-683 | an Output is accepted exactly when the title matches, any Export is read by `ReadExport` and the Value is a string, dict or helper; otherwise all field errors are reported; the entity holds the given Description, the read Export and the Value, in that order |
| Outputs.NatText | troposphere/__init__.py:670 | `str(n)`: one or more decimal digits, with a leading zero exactly for 0, whose decimal value (`DigitsValue`) is `n` |
| Outputs.StrCoerced | troposphere/__init__.py:670 | pydantic reads an int or a bool as a string, and nothing else that is not already one; a natural number becomes its digits, a negative one "-" and its digits, a bool "True" or "False" |
| Outputs.ReadExport | troposphere/__init__.py:670-677 | `Union[Export, ExportTypedDict]`: whatever `Export.validate` accepts gives its Export; failing that, a dict whose only key is "Name" (extra keys are forbidden) and whose name pydantic reads as a string gives the plain dict `{"Name": text}`; anything else is refused |
| Outputs.NumericExportName | troposphere/__init__.py:670-677 | `Export={"Name": n}` for any `n >= 0` is refused by `Export.validate` but kept as `{"Name": str(n)}` |
| Outputs.ExtraKeyExportRefused | troposphere/__init__.py:136-141 | under the models' `Extra.forbid` config, a dict holding a name only the `ExportTypedDict` arm reads and one more key, in either order, is refused as an Export |
| Outputs.OutputErrors | troposphere/__init__.py:673-683 | no errors exactly when the title matches, any Export is read by `ReadExport` and the Value is a string, dict or helper; at most one error per field |
| Outputs.OutputRendersValueLast | troposphere/__init__.py:676-678 | an Output renders its Description and Export first and its normalised Value last |
| Outputs.SameRenderedValue | troposphere/__init__.py:673-678 | two Outputs whose Values render alike render alike |
| Outputs.ExportForms | troposphere/__init__.py:659-667 | a dict whose "Name" entry is `name` (anywhere in it), the string and an Export object are read as the same Export, rendering as `{"Name": name}` |
| Outputs.RefOutputsAgree | example.py:17-40 | the example's three Outputs, with a Ref built from the title, from the parameter and from `ref()`, render identically |
| CloudFormation.ValidateFields | troposphere/cloudformation.py:27-43 | the root validator accepts exactly when the CreationPolicy rule holds (with a truthy CreationPolicy, neither Handle nor Timeout is truthy; without one, both are); on success it returns its input unchanged; a failure has exactly one error |
| CloudFormation.HandleReportedFirst | troposphere/cloudformation.py:30-42 | whichever way the rule is broken, a Handle violation is reported before a Timeout one |
| CloudFormation.ZeroTimeoutIsMissing | troposphere/cloudformation.py:37-42 | without a CreationPolicy, `Timeout=0` is rejected exactly as an omitted Timeout is |
| CloudFormation.WaitConditionFieldErrors | troposphere/cloudformation.py:16-25 | no errors exactly when the title matches, Handle is a dict or helper and Timeout is at most 43200; at most one error per field |
| CloudFormation.ValidateWaitCondition | troposphere/cloudformation.py:16-43 | accepted exactly when the CreationPolicy rule holds, the title matches, Handle is a dict or helper, and Timeout is at most 43200; a root failure stops validation with its single error; otherwise all field errors are reported |
| CloudFormation.WaitConditionRenders | troposphere/cloudformation.py:19-25 | a WaitCondition renders with `"Type": "AWS::CloudFormation::WaitCondition"` last; CreationPolicy sits beside "Properties", never inside it; Handle sits inside |
| CloudFormation.WaitConditionHandle | troposphere/cloudformation.py:46-49 | a WaitConditionHandle is accepted exactly when its title matches, and is a resource of type `AWS::CloudFormation::WaitConditionHandle` |
| CloudFormation.WaitConditionHandleRenders | troposphere/cloudformation.py:46-49 | it renders as `{"Properties": {}, "Type": "AWS::CloudFormation::WaitConditionHandle"}` |
| CloudFormation.ExampleWaitCondition | example.py:45-49 | the example's WaitCondition (a Ref to the handle, Timeout 30, no CreationPolicy) validates |
| Templates.InsertAll | troposphere/__init__.py:321-336 | `_update`: the result is the old dict followed by the items before the first duplicate, stored under their titles; the reported duplicate is that item's title, which is already present; no duplicate exactly when every item went in |
| Templates.Insert | troposphere/__init__.py:327-331 | the insertion loop computes exactly `InsertAll` |
| Templates.PushKeys | troposphere/__init__.py:331 | storing an entity under a new title appends the title to the keys, which stay distinct |
| Templates.KeyedAppend | troposphere/__init__.py:331 | storing a fresh entity under its title keeps every entity stored under its own title |
| Templates.InsertAllDistinct | troposphere/__init__.py:321-336 | after `_update`, whatever the outcome, the keys are distinct |
| Templates.InsertAllKeyed | troposphere/__init__.py:321-336 | after `_update`, whatever the outcome, a collection whose entities were stored under their titles still is |
| Templates.InsertAllSucceedsIff | troposphere/__init__.py:321-336 | `_update` succeeds exactly when the new titles are distinct from each other and from the keys already present |
| Templates.InsertAllOutcome | troposphere/__init__.py:321-336 | keys stay distinct; on success every item is appended under its title in order after the existing entries, which are untouched |
| Templates.BatchGrowsByItsLength | troposphere/__init__.py:366-376 | a list of fresh titles is inserted in full whatever the collection's size, since the cap is checked once per call |
| Templates.Render | troposphere/__init__.py:507-525 | `to_dict` yields a plain dict |
| Templates.RenderSection | troposphere/__init__.py:507-525 | each section appears under its alias exactly when its field is set (non-empty for a collection), holding the field normalised |
| Templates.RenderSectionKey | troposphere/__init__.py:511-523 | empty collections are left out of the document, set ones are kept |
| Templates.RenderKeysAreSections | troposphere/__init__.py:287-299 | the document has no key other than the field aliases |
| Templates.RenderEntities | troposphere/__init__.py:292-294 | a collection of entities renders each entity under its title, in insertion order, as its own `to_dict` normalised |
| Templates.RenderResources | troposphere/__init__.py:507-525 | "Resources" appears exactly when there is a resource, and then holds every resource rendered |
| Templates.RenderFreshSections | troposphere/__init__.py:287-299 | a fresh Template renders only the format version, and Description and Transform when they are set |
| Templates.RenderFreshVersion | troposphere/__init__.py:297-299 | a fresh Template renders `"AWSTemplateFormatVersion": "2010-09-09"` |
| Templates.GlobalsAssigned | troposphere/__init__.py:261-268 | `None` stays unset; whatever `dict()` reads (a dict, `""`, a list of pairs) is stored as that dict; a helper is kept; any other value becomes an empty `AWSHelperFn`; the stored value is a dict or a helper, and it is truthy exactly when the value given is truthy or `dict()` cannot read it |
| Templates.FallbackGlobalsBlockTransform | troposphere/__init__.py:261-265 | Globals given as a value that `dict()` cannot read and that is not a helper, even `0`, refuses every later non-serverless Transform |
| Templates.EmptyGlobalsLeaveTransformFree | troposphere/__init__.py:546-553 | Globals given as `""` or `[]` is stored as the empty dict, so every later Transform, `None` included, is accepted |
| Templates.PairGlobals | troposphere/__init__.py:268 | Globals given as a list of pairs is stored as the dict they spell, the later of two pairs for a key deciding its value |
| Values.DictOfPairs | troposphere/__init__.py:268 | `dict(pairs)`: defined exactly when every element is a pair; keys already present stay; the result is empty exactly when there was nothing to store; keys stay distinct |
| Values.LastPairWins | troposphere/__init__.py:268 | in `dict(pairs)` the last pair for a key decides its value |
| Values.DictRead | troposphere/__init__.py:268 | the `Dict` member of `AWSHelperFnOrDict`: a dict is kept, a list is read as pairs, of strings only `""` is read; what is read has distinct keys and is empty exactly when the value given is falsy |
| Templates.GlobalsErrors | troposphere/__init__.py:535-544 | Globals are accepted exactly when the Transform is `AWS::Serverless-2016-10-31` |
| Templates.TransformErrors | troposphere/__init__.py:546-553 | a Transform, `None` included, is accepted exactly when Globals are not truthy or it is the serverless transform |
| Templates.InitErrors | troposphere/__init__.py:535-553 | at construction Transform is not yet validated when Globals are, so construction fails exactly when Globals are given |
| Templates.MappingUpdate | troposphere/__init__.py:352-364 | the named mapping is created when absent and never moves; new keys override old ones; other keys and other mappings are unchanged |
| Templates.FindGroup | troposphere/__init__.py:387-392 | the search finds the first group whose label is the name: every earlier group has a different label; it fails only at a group without a readable label before any match |
| Templates.AppendToGroup | troposphere/__init__.py:401 | the title is appended to the group's list, duplicates kept; nothing else in the group changes; fails when the group has no list of parameters |
| Templates.UpdatedGroups | troposphere/__init__.py:387-401 | the title joins the first group with that label, with every other group unchanged and the same number of groups; with no such group exactly one new group is appended at the end |
| Templates.AddToGroup | troposphere/__init__.py:378-403 | returns the group name on success; metadata outside the interface entry is unchanged; keys stay distinct |
| Templates.AddToGroupSucceedsIff | troposphere/__init__.py:378-403 | succeeds exactly when the interface entry is absent or a dict, its ParameterGroups entry is absent or a list, and the groups up to the first one labelled with the name carry a readable `Label.default` (that group, if any, holding a list of Parameters) |
| Templates.AddToGroupEffect | troposphere/__init__.py:378-403 | on success the stored groups are the updated groups, and no other entry of the interface dict changes |
| Templates.SearchGroups | troposphere/__init__.py:387-392 | the search loop computes exactly `FindGroup` |
| Templates.SetLabel | troposphere/__init__.py:483-492 | metadata outside the interface entry is unchanged; keys stay distinct |
| Templates.SetLabelEffect | troposphere/__init__.py:483-492 | fails exactly when the interface entry or its labels entry exists and is not a dict; otherwise the label becomes `{"default": label}`, replacing an earlier one in place, with other labels and interface entries unchanged |
| Templates.Template.constructor | troposphere/__init__.py:284-299 | a new Template holds exactly the given Conditions, Description, Mappings, Metadata, Outputs, Parameters, Resources, Rules, Transform and version, with no Globals; called with the defaults it is fresh (`IsFresh`) |
| Templates.Template.AddParameter | troposphere/__init__.py:372-376 | at 200 parameters it fails and changes nothing; otherwise only `parameters` changes, as `_update`; the Template stays consistent, and entities stay stored under their titles |
| Templates.Template.AddOutput | troposphere/__init__.py:366-370 | at 200 outputs it fails and changes nothing; otherwise only `outputs` changes, as `_update` |
| Templates.Template.AddResource | troposphere/__init__.py:405-409 | at 500 resources it fails and changes nothing; otherwise only `resources` changes, as `_update` |
| Templates.Template.Register | troposphere/__init__.py:152-159 | a Parameter goes to `parameters` (line 587-590), an Output to `outputs` (line 680-683), any other entity to `resources`, and nothing else changes; at the section's cap it fails with the limit error and changes nothing; a title already there fails as a duplicate and leaves the section as it was; otherwise the entity is stored last under its title and `[e]` is returned |
| Templates.Template.GetOrAddParameter | troposphere/__init__.py:458-462 | a present title returns the stored Parameter and changes nothing; otherwise it is `add_parameter` |
| Templates.Template.AddCondition | troposphere/__init__.py:338-350 | the condition replaces any earlier one of that name; only `conditions` changes; the name is returned |
| Templates.Template.AddMapping | troposphere/__init__.py:352-364 | at 200 mappings it fails and changes nothing, even for an existing name; otherwise only `mappings` changes, as `MappingUpdate` |
| Templates.Template.AddRule | troposphere/__init__.py:411-427 | a present name fails and changes nothing; otherwise the rule is appended; there is no cap |
| Templates.Template.AddParameterToGroup | troposphere/__init__.py:378-403 | the new metadata and the outcome are those of `AddToGroup`; nothing else changes |
| Templates.Template.SetParameterLabel | troposphere/__init__.py:483-492 | the new metadata and the outcome are those of `SetLabel`; nothing else changes |
| Templates.Template.SetGlobals | troposphere/__init__.py:473-476 | any value, `None` included, succeeds exactly when the Transform is serverless, and then `globals` becomes `GlobalsAssigned(value)` and nothing else changes; a failure changes nothing |
| Templates.Template.SetTransform | troposphere/__init__.py:494-497 | a value, `None` included, succeeds exactly when Globals are not truthy or it is the serverless transform, and then only `transform` changes; a failure changes nothing |
| Templates.Template.SetVersion | troposphere/__init__.py:499-505 | a missing or empty version becomes `2010-09-09`; any other is stored |
| Templates.Template.SetDescription | troposphere/__init__.py:468-471 | the description becomes the given value, `None` included; nothing else changes |
| Templates.Template.SetMetadata | troposphere/__init__.py:478-481 | the metadata dict is replaced whole; nothing else changes |

## Left out

- JSON and YAML text (`to_json`, `to_yaml`, the JSON encoder) and `Template.__eq__`, which compares JSON text. The model stops at the normalised tree.
- The package version lookup: it reads installed package metadata.
- `AWSHelperFn.__hash__`, `__str__`, `__get_validators__` and `__modify_schema__`: pydantic and Python plumbing.
- `BaseAWSObject.from_dict`: it only forwards its arguments to the constructor.
- The pseudo-parameter constants (`AccountId`, `Region`, …): each is a `Ref` to a fixed name, which `Helpers.RefFn` covers.
- `validate_delimiter` in `Join` and `Split`: it only checks that the delimiter is a string, which the types guarantee.
- `troposphere/policies.py`: a CreationPolicy is kept as an opaque value.
- `patch_pydantic.py`: it rewrites an installed file on disk.
- Error messages: only the kind of each error and the field it names are modelled. (The MinValue/MaxValue message says "String" where it means "Number".)
- Floats are exact reals, and nothing computes with them.
- Parameters.DefaultErrors: Python's `float()` parsing of each `List<Number>` piece is the parameter `isFloat`, not modelled text parsing.
- Outputs.ValidateOutput: pydantic's coercions inside `Union[str, …]` (a number becoming a string) are not modelled. The generic `AWSHelperFn.validate` fallback, which builds an empty helper from any other value, is not modelled either. A Value other than a string, dict or helper is therefore modelled as rejected. A list that `dict()` reads (such as `[]` or a list of pairs) is refused here as well, where the source would store the dict it reads.
- Outputs.OutputErrors: computes the Value rule of the line above, so it reports a Value other than a string, dict or helper as rejected, where the source would coerce it or fall back to an empty helper.
- Outputs.ReadExport: a float "Name" (which pydantic would turn into its Python text) and a non-dict value that `dict()` can read (a list of pairs) are refused here; the `ExportTypedDict` arm is modelled for ints and bools only.
- CloudFormation.WaitConditionFieldErrors: computes the Handle rule of the next line, so it reports a Handle other than a dict or helper as rejected, where the source falls back to an empty helper.
- CloudFormation.ValidateWaitCondition: the generic `AWSHelperFn.validate` fallback is not modelled, so a Handle other than a dict or helper is modelled as rejected.
- Parameters.ValidateParameter: pydantic's coercion of Default and AllowedValues into `Union[int, float, str]` is taken as done. An explicit `None` for an optional field is treated as an omitted field.
- Templates.GlobalsAssigned: `dict()` of a pydantic model (its fields), of an iterable foreign object, of a list whose pair is itself a two-key dict, or of pairs with non-string keys (pydantic coerces those after `dict()` has merged keys Python holds equal, such as `1` and `True`) is not modelled; these values go to the empty-helper fallback here.
- Templates.Template.SetGlobals: stores `GlobalsAssigned(value)` and so inherits the line above. The empty helper has no `data`, so rendering it raises in Python; the model does not capture that.
- Templates.Template.constructor: pydantic's checking and coercion of the initial collections' values is not modelled; they are taken as already of the declared types. Globals cannot be given (see `Templates.InitErrors`). The collections are stored as given, so an entity may sit under a key other than its title; `Templates.KeyedByTitles` holds only where the caller's dicts satisfy it, and the insertion methods keep it.
- Parameters.ValidateParameter: models the corrected Default validator, which keeps an accepted Default (see the first finding); the code as written is `Parameters.ParameterEntityAsWritten` with `Parameters.CheckDefaultAsWritten`.
- Entities.TitleErrors: models the corrected title rule, which refuses "Foo\n" (see the second finding); the code as written is `Entities.TitleMatchesAsWritten`. `Outputs.ValidateOutput`, `CloudFormation.ValidateWaitCondition` and `CloudFormation.WaitConditionHandle` use `Entities.TitleErrors` and so follow the corrected rule too.
- Helpers.HelperEquals: comparison here is structural, so it depends on dict key order and tells `1`, `1.0` and `True` apart; Python's `==` ignores dict order and equates those three. The predicate can therefore be false where Python's comparison is true.
- Templates.Template.AddParameter: a single entity is passed as a one-item list. `_update` treats the two alike.
- Aliasing: the source's metadata, mapping and group dicts are shared Python objects, and a caller holding one sees later in-place edits. The model copies them by value, so it does not capture that sharing.
- `Templates.Template.SetMetadata` requires distinct keys, which every Python dict has.

## Findings

| source | as written | input that shows it | evidently intended | confidence | as-written member | corrected member |
|---|---|---|---|---|---|---|
| troposphere/__init__.py:592-621 | `_validate_default_type` has no `return v`, so pydantic stores `None` for every accepted Default | `Parameter(title="TestParameter", Type="String", Default="foobar")` as in example.py:9-15 renders with no "Default" | an accepted Default is kept and rendered | high, not executed | Parameters.DefaultLostAsWritten | Parameters.CheckDefault |
| troposphere/__init__.py:133 | the title pattern `^[a-zA-Z0-9]+$` is applied with `re.match`, where `$` also matches before a final newline | the title `"Foo\n"` is accepted | titles of ASCII letters and digits only | medium, not executed | Entities.TrailingNewlineTitle | Entities.TitleErrors |
