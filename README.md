# verifactu-php, modelled in Dafny

This models the core of the `logosur/verifactu-php` library, which registers, cancels and queries invoice
records with the Spanish tax agency (AEAT) under the VERI*FACTU system. Five parts are modelled:

- **The record fingerprint ("huella")** (`hash_generator.dfy`, module `HashGenerator`). It is a canonical
  `Key=value&...` data string, built from eight fields for a submission ("RegistroAlta") or five for a
  cancellation ("RegistroAnulacion"), hashed with SHA-256 and encoded in base64. Amounts are normalised by
  `number_format` followed by two `rtrim` calls. Any other record type is rejected.
- **Rule-based validation of model objects** (`validation.dfy`, module `Validation`). `performValidation`
  walks the rules and their properties. It skips excluded properties, applies `required`, callables and
  the `string`/`integer`/`float`/`email` checks, and collects the messages per property.
- **The service** (`service.dfy`, module `Service`). It validates a record without its hash, generates
  the hash, validates again, builds the XML, signs it, sends it over SOAP through a lazily created and
  cached client, and parses the reply. It also hands QR rendering the configured validation URL.
- **The entry point** (`verifactu.dfy`, module `Verifactu`). `createService` picks the SOAP endpoint from
  the environment and certificate type, and the QR validation URL from the environment. The deprecated
  static methods throw, except `config`, which does nothing.
- **The configuration value object** (`config.dfy`, module `Config`). It falls back to the bundled WSDL
  file when no WSDL is given, and to an empty QR URL when none is given.

Supporting modules:

- `wrappers.dfy`: `Option`, `Result` and the exceptions.
- `text.dfy`: PHP's `trim`, `rtrim` with a character, `implode`/`explode` and decimal numerals.
- `records.dfy`: the typed record fields the fingerprint reads.

The `&` separator is not escaped. When a field contains `&` together with another field's label, two different records can share a data string; the lemmas on the data string therefore assume `&`-free fields, and HashGenerator.SeparatorAmbiguity shows that the assumption is needed.

Each operation has a partner. The fingerprint data string parses back to the hashed values. The
normalised amount parses back to the amount. The fingerprint chain is tamper-evident: under a
collision-free hash, equal fingerprints at one position mean equal hashed values at every earlier
position. The validation loops are proved against a per-property reference definition. Each service
method is proved against the validation functions and an ordered ghost trace of what it asks of its
collaborators, with the invariant that the SOAP client is created at most once.

## Model

| member | source | states |
|---|---|---|
| HashGenerator.NormalizeDecimal | src/services/HashGeneratorService.php:103-107 | The normalised amount is non-empty, never ends in a dot, uses only digits, `-` and `.`, and equals the reference `DecimalText` (sign, integer part, and a fraction with its trailing zeros dropped) |
| HashGenerator.FormatTwoDecimals | src/services/HashGeneratorService.php:106 | `number_format($v, 2, '.', '')` yields only digits, `-` and `.`, ends in a dot followed by exactly two digits, and has no other dot |
| HashGenerator.DecimalText | src/services/HashGeneratorService.php:103-107 | The reference numeral is non-empty, has no trailing dot, and uses only decimal characters |
| HashGenerator.TrimFractionZeros | src/services/HashGeneratorService.php:106 | Stripping `0`s and then `.` from `p.d1d2` keeps both decimals when d2 is not 0, keeps one when only d2 is 0, and drops the dot when both are 0 |
| HashGenerator.FractionDigits | src/services/HashGeneratorService.php:106 | The fraction text of f cents is `.d1d2`, `.d1` or empty, depending on which of its digits are zero |
| HashGenerator.NormalizeDecimalIsDecimalText | src/services/HashGeneratorService.php:106 | The double rtrim of the two-decimal format equals the reference numeral, for every amount |
| HashGenerator.AppendFraction | src/services/HashGeneratorService.php:106 | Appending the dropped-zeros fraction case by case equals appending the fraction text |
| HashGenerator.FractionRoundTrip | src/services/HashGeneratorService.php:106 | A non-zero fraction's text is a dot followed by one or two digits, and those digits read back as the same cents |
| HashGenerator.NumeralHasNoDot | src/services/HashGeneratorService.php:106 | An integer part never contains the decimal dot |
| HashGenerator.ParseWholeNumeral | src/services/HashGeneratorService.php:106 | A whole numeral w reads back as 100·w cents |
| HashGenerator.ParseFractionNumeral | src/services/HashGeneratorService.php:106 | A numeral w followed by the fraction text of f reads back as 100·w + f cents |
| HashGenerator.ParseUnsignedDecimal | src/services/HashGeneratorService.php:106 | The unsigned numeral of any non-negative amount reads back as that amount |
| HashGenerator.ParseSigned | src/services/HashGeneratorService.php:106 | Prefixing `-` for a negative amount to a body that reads as its magnitude gives text that reads as the signed amount |
| HashGenerator.UnsignedDecimalParses | src/services/HashGeneratorService.php:106 | An unsigned numeral starts with a digit and reads back as its amount |
| HashGenerator.DecimalTextRoundTrip | src/services/HashGeneratorService.php:103-107 | Reading back the reference numeral gives the original amount |
| HashGenerator.NormalizeDecimalRoundTrip | src/services/HashGeneratorService.php:103-107 | `normalizeDecimal` loses nothing: its output parses back to the exact amount in cents |
| HashGenerator.ParseTwoDecimalNumeral | src/services/HashGeneratorService.php:106 | A numeral w, a dot and the two digits of f < 100 read back as 100·w + f cents |
| HashGenerator.FormatTwoDecimalsRoundTrip | src/services/HashGeneratorService.php:106 | The two-decimal format of any amount reads back as that amount, before any zero is stripped |
| HashGenerator.NormalizeDecimalInjective | src/services/HashGeneratorService.php:103-107 | Different amounts never normalise to the same text |
| HashGenerator.NormalizeWholeAmount | src/services/HashGeneratorService.php:103-107 | A whole non-negative amount normalises to its integer part alone, with no dot |
| HashGenerator.NormalizeOneDecimal | src/services/HashGeneratorService.php:103-107 | A non-negative amount with a single significant decimal keeps exactly one decimal |
| HashGenerator.NormalizeTwoDecimals | src/services/HashGeneratorService.php:103-107 | A non-negative amount whose second decimal is non-zero keeps both decimals |
| HashGenerator.WholeAmountExamples | tests/Unit/HashGeneratorEncapsulationTest.php:26-27 | 21.00 and 121.00 normalise to `21` and `121` |
| HashGenerator.OneDecimalExamples | tests/Unit/HashGeneratorEncapsulationTest.php:62-63 | 10.50 and 110.50 normalise to `10.5` and `110.5` |
| HashGenerator.Labels | src/services/HashGeneratorService.php:58-67 | A submission has 8 labels and a cancellation 5 |
| HashGenerator.HashedValues | src/services/HashGeneratorService.php:44-56 | A submission hashes 8 values and a cancellation 5 |
| HashGenerator.DataParts | src/services/HashGeneratorService.php:58-67 | Part k is label k followed by hashed value k |
| HashGenerator.Labelled | src/services/HashGeneratorService.php:58-67 | Prefixing each value with its label gives one part per label. HashGenerator.LabelledIndex and HashGenerator.UnlabelLabelled state its contents and its inverse |
| HashGenerator.LabelledIndex | src/services/HashGeneratorService.php:58-67 | Part k of the labelled values is label k followed by value k |
| HashGenerator.PreviousHash | src/services/HashGeneratorService.php:51 | The previous hash is the one stored in the chaining block's previous record when the block, the record and the hash are all present, and the empty string otherwise |
| HashGenerator.TypeText | src/services/HashGeneratorService.php:48 | TipoFactura is the backing value of an enum case and the text of a scalar |
| HashGenerator.BuildDataString | src/services/HashGeneratorService.php:36-96 | Succeeds exactly for submissions and cancellations, joining their parts with `&`. Any other record fails with InvalidArgumentException "Unsupported record type for hash generation." |
| HashGenerator.Generate | src/services/HashGeneratorService.php:23-30 | Succeeds exactly when the data string can be built. The fingerprint is base64 of the raw SHA-256 of that string, and the data string's exception is passed on |
| HashGenerator.SubmissionLabels | src/services/HashGeneratorService.php:58-67 | The eight submission parts in AEAT order: IDEmisorFactura, NumSerieFactura, FechaExpedicionFactura, TipoFactura, CuotaTotal, ImporteTotal, Huella, FechaHoraHusoGenRegistro |
| HashGenerator.CancellationLabels | src/services/HashGeneratorService.php:84-90 | The five cancellation parts in AEAT order: IDEmisorFacturaAnulada, NumSerieFacturaAnulada, FechaExpedicionFacturaAnulada, Huella, FechaHoraHusoGenRegistro |
| HashGenerator.SubmissionLayout | src/services/HashGeneratorService.php:41-67 | Submission parts: identifiers, type, timestamp and previous hash are trimmed. Amounts are normalised and not trimmed. TipoFactura is the enum's backing value or the scalar's string form. A missing chaining, previous invoice or hash gives an empty Huella |
| HashGenerator.SubmissionLayoutWith | src/services/HashGeneratorService.php:58-67 | The submission parts, given the normalised amounts and the trimmed previous hash |
| HashGenerator.CancellationLayout | src/services/HashGeneratorService.php:73-90 | Cancellation parts: trimmed identifiers, trimmed previous hash (empty when absent) and trimmed timestamp, with no amounts |
| HashGenerator.FirstRecordExample | tests/Unit/HashGeneratorEncapsulationTest.php:15-49 | A first record in the chain with amounts 21.00/121.00 hashes `CuotaTotal=21`, `ImporteTotal=121` and an empty `Huella=` |
| HashGenerator.ChainedRecordExample | tests/Unit/HashGeneratorEncapsulationTest.php:51-91 | A chained record with amounts 10.50/110.50 hashes `CuotaTotal=10.5`, `ImporteTotal=110.5` and the trimmed previous hash |
| HashGenerator.Unlabel | src/services/HashGeneratorService.php:58-68 | Removing the labels, when it succeeds, gives one value per label |
| HashGenerator.UnlabelLabelled | src/services/HashGeneratorService.php:58-68 | Removing the labels from labelled values gives back the values |
| HashGenerator.LabelsSeparatorFree | src/services/HashGeneratorService.php:58-67 | No label contains `&` |
| HashGenerator.SubmissionLabelSeparatorFree | src/services/HashGeneratorService.php:59-66 | No submission label contains `&` |
| HashGenerator.CancellationLabelSeparatorFree | src/services/HashGeneratorService.php:85-89 | No cancellation label contains `&` |
| HashGenerator.PartsSeparatorFree | src/services/HashGeneratorService.php:58-68 | When no hashed value contains `&`, no part does |
| HashGenerator.DataStringRoundTrip | src/services/HashGeneratorService.php:36-96 | When no field contains `&`, splitting the data string on `&` and removing the labels gives back exactly the hashed values |
| HashGenerator.DataStringDeterminesHashedValues | src/services/HashGeneratorService.php:36-96 | Two `&`-free records with the same data string are the same kind of record with the same hashed values |
| HashGenerator.DataStringDeterminesAmounts | src/services/HashGeneratorService.php:55-64 | Two `&`-free submissions with the same data string have the same tax and total amounts |
| HashGenerator.SeparatorAmbiguity | src/services/HashGeneratorService.php:84-91 | Without the `&`-free condition the data string is ambiguous: a cancellation whose trimmed NIF holds `&NumSerieFacturaAnulada=` and one whose number holds it instead hash different values but build the same data string |
| HashGenerator.SameDataString | src/services/HashGeneratorService.php:84-91 | Moving `&NumSerieFacturaAnulada=` plus text from the end of the NIF to the start of the number leaves the data string unchanged |
| HashGenerator.IssuersDiffer | src/services/HashGeneratorService.php:77-85 | Those two cancellations hash different NIF values |
| HashGenerator.SeparatorAmbiguityExample | src/services/HashGeneratorService.php:84-91 | A concrete instance: NIF `x&NumSerieFacturaAnulada=y` with number `z`, and NIF `x` with number `y&NumSerieFacturaAnulada=z`, are different records with the same data string |
| HashGenerator.CancellationTail | src/services/HashGeneratorService.php:87-89 | Its contract states only that a cancellation's tail has three parts. It is a transparent helper whose body labels the issue date, previous hash and timestamp, used by HashGenerator.CancellationJoin |
| HashGenerator.CancellationJoin | src/services/HashGeneratorService.php:84-91 | A cancellation's data string is its labelled NIF and number, then its tail, joined with `&` |
| HashGenerator.JoinAmbiguity | src/services/HashGeneratorService.php:91 | `implode('&', …)` cannot tell `&` inside a part from the separator between parts |
| HashGenerator.GenerateDeterminesHashedValues | src/services/HashGeneratorService.php:23-30 | Under a collision-free SHA-256 and base64, equal fingerprints mean equal hashed values |
| HashGenerator.SameValuesSamePreviousHash | src/services/HashGeneratorService.php:51 | Records with equal hashed values name the same trimmed previous hash |
| HashGenerator.FingerprintIsTrimmed | src/services/HashGeneratorService.php:29 | A base64 fingerprint is unchanged by `trim`, so a chained record's Huella is the previous fingerprint itself |
| HashGenerator.ChainStepBack | src/services/HashGeneratorService.php:51 | In two linked chains, equal fingerprints at position k+1 mean equal fingerprints at position k |
| HashGenerator.RecordStepBack | src/services/HashGeneratorService.php:23-51 | When two records each name their predecessor's fingerprint as previous hash and have equal fingerprints, the predecessors have equal fingerprints |
| HashGenerator.ChainAgreesBefore | src/services/HashGeneratorService.php:51 | In two linked chains, equal fingerprints at position i mean equal fingerprints at every position j ≤ i |
| HashGenerator.ChainTamperEvident | src/services/HashGeneratorService.php:23-96 | The chain is tamper-evident: equal fingerprints at position i mean every earlier record hashed the same values |
| Text.TrimLeft | src/services/HashGeneratorService.php:59 | `ltrim` removes exactly the leading PHP whitespace, and the result is a suffix of its input |
| Text.TrimRight | src/services/HashGeneratorService.php:59 | `rtrim` removes exactly the trailing PHP whitespace, and the result is a prefix of its input |
| Text.TrimmedIsFixed | src/services/HashGeneratorService.php:59 | `trim` leaves unchanged a string with no whitespace at either end |
| Text.Trim | src/services/HashGeneratorService.php:59-66 | `trim` never lengthens its input, and its result neither starts nor ends with whitespace. Text.TrimIsSlice states that only edge whitespace is removed |
| Text.TrimIdempotent | src/services/HashGeneratorService.php:59 | Trimming twice is trimming once |
| Text.TrimIsSlice | src/services/HashGeneratorService.php:59-66 | `trim` removes only edge whitespace: its result is the slice of the input that starts where the leading whitespace ends, and everything before and after that slice is whitespace |
| Text.TrimRightChar | src/services/HashGeneratorService.php:106 | `rtrim($s, c)` removes exactly the trailing run of c, and the result is a prefix that does not end in c |
| Text.Split | src/services/HashGeneratorService.php:68 | The reference inverse of `implode`, as `explode` splits: it always gives at least one piece. The source never splits; Text.SplitJoin relates the two |
| Text.Join | src/services/HashGeneratorService.php:68 | `implode` starts with the first part, is at least one character per separator long, and with two or more parts puts the separator right after the first part. Text.JoinTwoHeads gives its shape and Text.SplitJoin its inverse |
| Text.JoinTwoHeads | src/services/HashGeneratorService.php:68 | `implode` of three or more parts is the first two parts, each followed by the separator, then `implode` of the rest |
| Text.SplitFree | src/services/HashGeneratorService.php:68 | A string without the separator splits into itself |
| Text.SplitAtFirst | src/services/HashGeneratorService.php:68 | Splitting at the first separator gives the part before it followed by the split of the rest |
| Text.SplitJoin | src/services/HashGeneratorService.php:68 | `implode` is undone by splitting on the same separator when no part contains it |
| Text.DigitChar | src/services/HashGeneratorService.php:106 | Digit d is the character `'0' + d` |
| Text.DigitValue | src/services/HashGeneratorService.php:106 | A digit character's value is below 10, and DigitChar of it gives the character back |
| Text.NatToString | src/services/HashGeneratorService.php:106 | A decimal numeral is non-empty, all digits, and has no leading zero |
| Text.NatStringRoundTrip | src/services/HashGeneratorService.php:106 | Reading a numeral gives back its number |
| Validation.Check | src/models/Model.php:58-100 | One validator on one value. `required` fails exactly on null, `''` and `[]`, with "This field is required.". Null skips string/integer/float/email. `string`/`integer`/`float` accept exactly their types (float also accepts int), and otherwise add "Must be a string.", "Must be an integer." or "Must be a float.". `email` needs a string passing the email filter, and otherwise adds "Must be a valid email address.". A callable passes only on `true`, and otherwise adds its string result or "Validation failed for p.". Any other name adds "Unknown validator: …" |
| Validation.Resolve | src/models/Model.php:53-56 | The value a property is checked against: the getter or the property, and null when there is none. Its contract lives in Validation.RequiredCatchesBlank and Validation.ErrorMapLookup |
| Validation.IsBlank | src/models/Model.php:59 | The values `required` rejects: null, `''` and `[]`. Validation.Check states it through its `required` clause |
| Validation.Append | src/models/Model.php:60-99 | `$errors[$property][] = …` adds the message at the end of that property's list, creates the key when missing, and leaves every other property unchanged |
| Validation.Step | src/models/Model.php:48-100 | One inner-loop body. Its contract is Validation.StepLookup |
| Validation.CheckProperties | src/models/Model.php:47-102 | The inner loop over a rule's properties. Its contract is Validation.CheckPropertiesLookup and Validation.CheckPropertiesNoEmptyEntries |
| Validation.ErrorMap | src/models/Model.php:40-103 | The outer loop over the rules. Its contract is Validation.ErrorMapLookup against the per-property reference, plus Validation.ErrorMapNoEmptyEntries and Validation.ExcludeRemovesKeys |
| Validation.Judge | src/models/Model.php:105 | The outcome is `true` exactly when no errors were collected, and otherwise is the error map itself |
| Validation.StepLookup | src/models/Model.php:47-101 | Checking property q against one validator adds at most one message, and only to q when q is not excluded |
| Validation.CheckPropertiesLookup | src/models/Model.php:47-102 | After a rule's property list, a property's messages are its earlier ones plus one message per occurrence in the list, or none when it is excluded |
| Validation.ErrorMapLookup | src/models/Model.php:40-103 | The messages of each property are those its rules produce in rule order, and none when it is excluded |
| Validation.CheckPropertiesNoEmptyEntries | src/models/Model.php:47-102 | Checking a property list never creates a property entry without a message |
| Validation.ErrorMapNoEmptyEntries | src/models/Model.php:38-103 | Every key in the error map has at least one message |
| Validation.ExcludeRemovesKeys | src/models/Model.php:48-51 | Excluding properties removes exactly their keys from the full error map |
| Validation.PassesIffNoMessages | src/models/Model.php:105 | Validation passes if and only if no non-excluded property has a message |
| Validation.OccurrenceReported | src/models/Model.php:47-101 | A failing check on a listed property yields its message |
| Validation.FailureReported | src/models/Model.php:40-103 | Every message a rule produces for a property appears among that property's messages |
| Validation.RequiredCatchesBlank | src/models/Model.php:58-63 | A `required` rule on a blank, non-excluded property fails validation with "This field is required." under that property |
| Validation.Model.constructor | src/models/Model.php:11-29 | Stands for constructing a concrete model of the abstract class: it holds the rules its `rules()` returns, its record and its property values |
| Validation.Model.PerformValidation | src/models/Model.php:36-106 | The nested loops over rules and properties return exactly the judged reference error map |
| Validation.Model.CheckProperty | src/models/Model.php:48-100 | One iteration of the inner loop is one reference step |
| Validation.Model.Validate | src/models/Model.php:114-117 | Validation with nothing excluded |
| Validation.Model.ValidateExcept | src/models/Model.php:126-129 | Validation with the given properties excluded |
| Validation.Model.ValidateExceptHash | src/models/Model.php:137-140 | Validation with `hash` excluded |
| Validation.Model.SetHash | src/services/VerifactuService.php:62 | Assigning the hash changes only the `hash` property |
| Config.VerifactuConfig.GetWsdl | src/services/VerifactuConfig.php:33-36 | Returns the stored WSDL |
| Config.VerifactuConfig.GetCertPath | src/services/VerifactuConfig.php:38-41 | Returns the stored certificate path |
| Config.VerifactuConfig.GetCertPassword | src/services/VerifactuConfig.php:43-46 | Returns the stored certificate password |
| Config.VerifactuConfig.GetQrValidationUrl | src/services/VerifactuConfig.php:48-51 | Returns the stored QR validation URL |
| Config.NewConfig | src/services/VerifactuConfig.php:17-31 | A truthy WSDL is kept. Otherwise (null, `''` or `"0"`) the bundled file under the installation directory is used, and it ends in `/docs/aeat/SistemaFacturacion.wsdl.xml`. Certificate path and password are kept. A null QR URL becomes `''` |
| Config.EndsWithAppended | tests/Unit/VerifactuWsdlSelectionUnitTest.php:41 | A path ends with the suffix appended to it |
| Config.ZeroWsdlFallsBack | src/services/VerifactuConfig.php:24-26 | The falsy string `"0"` as WSDL selects the bundled file |
| Service.SendTrace | src/services/VerifactuService.php:72-89 | The steps after validation create a client only when none was cached |
| Service.ClientsCreatedAppend | src/services/VerifactuService.php:32-43 | Client creations in two traces add up |
| Service.ClientFor | src/services/VerifactuService.php:35-40 | The client is built from the configuration's WSDL, certificate path and password |
| Service.VerifactuService.constructor | src/services/VerifactuService.php:26-29 | A new service holds its configuration and has no client |
| Service.VerifactuService.GetClient | src/services/VerifactuService.php:32-43 | The first call creates the client from the configuration and caches it. Later calls reuse it and create nothing, so exactly one client exists once one is cached |
| Service.VerifactuService.Send | src/services/VerifactuService.php:72-89 | Build the XML from the record and its current properties, optionally sign it with the configured certificate, get the client, call the operation with the payload under its key, and parse the reply, in this order |
| Service.VerifactuService.Prepare | src/services/VerifactuService.php:55-69 | A failed pre-validation (hash excluded) raises with the pre-validation errors and leaves the record unchanged. Otherwise the hash becomes the generated fingerprint, and a failed final validation raises with the final errors |
| Service.VerifactuService.Submit | src/services/VerifactuService.php:52-129 | The shared flow of registering and cancelling: nothing is sent unless both validations pass. Otherwise the XML is built from the record with its generated hash stored, signed and sent to SuministroLR, and the parsed reply is returned |
| Service.VerifactuService.RegisterInvoice | src/services/VerifactuService.php:52-90 | Each failing validation raises its "InvoiceSubmission … validation failed" error with no external call. Otherwise the invoice gets its fingerprint, and the XML built from the invoice with that hash stored is signed and sent to SuministroLR under RegistroAlta. The parsed invoice response is returned |
| Service.VerifactuService.CancelInvoice | src/services/VerifactuService.php:97-129 | The same for a cancellation: "InvoiceCancellation … validation failed" errors, then the XML built from the cancellation with its new hash stored, signed, under RegistroAnulacion to SuministroLR |
| Service.VerifactuService.QueryInvoices | src/services/VerifactuService.php:137-150 | A failing validation raises "InvoiceQuery validation failed" with nothing sent. Otherwise the unsigned XML built from the query goes to ConsultaLR under ConsultaFactuSistemaFacturacion and the parsed query response is returned |
| Verifactu.Endpoint | src/Verifactu.php:60-64 | The endpoint exists exactly for production and sandbox, and is otherwise "Invalid environment: …". It is a seal endpoint exactly for the seal certificate type, and a production endpoint exactly in production |
| Verifactu.QrVerificationUrl | src/Verifactu.php:66-70 | The QR URL exists exactly for production and sandbox. It is the production validation URL in production and the test validation URL in sandbox |
| Verifactu.EndpointsDistinct | src/Verifactu.php:25-40 | The four SOAP endpoints are pairwise different |
| Verifactu.QrUrlsDistinct | src/Verifactu.php:45-50 | The two QR validation URLs differ |
| Verifactu.EndpointDeterminesChoice | src/Verifactu.php:60-64 | The endpoint reveals the environment and whether the seal certificate type was chosen |
| Verifactu.SameEnvironmentsAccepted | src/Verifactu.php:60-70 | Endpoint and QR selection accept and reject the same environments |
| Verifactu.CreateService | src/Verifactu.php:58-74 | An unknown environment raises before any configuration exists. Otherwise the service is new and has no client, and its configuration holds the selected endpoint as WSDL, the certificate and the environment's QR URL |
| Verifactu.CreatedServiceQrBaseUrl | src/services/VerifactuService.php:152-161 | QR codes of a service created for an environment are rendered with that environment's validation URL as base URL |
| Verifactu.CallStatic | src/Verifactu.php:79-103 | The deprecated `config` does nothing. Every other static method raises BadMethodCallException naming its `createService(...)->` replacement |

## Left out

- Amounts are integer cents. PHP's `(float)` cast and the rounding in `number_format` of values with more than two decimals are not modelled, and neither are non-numeric amounts.
- SHA-256, base64, the `FILTER_VALIDATE_EMAIL` filter, the XML builders, the XML signer, the SOAP client factory, `__soapCall`, the response parsers and the QR renderer are parameters, specified only by their inputs. The QR generator is not part of this model. Exceptions these collaborators throw (a `SoapFault`, a `DOMException`) are not modelled.
- Getter dispatch (`get` + `ucfirst($property)`, then the property, then null) is a map from property names to values. The model does not tie this map to the typed record the fingerprint reads.
- Callables named by a string (`is_numeric` and the like) are modelled like closures: a function from value and properties to a result.
- The `print_r` rendering of the error map in exception messages is not modelled. A ValidationFailed exception carries the message prefix and the error map itself.
- The error map's key order (PHP arrays are ordered) is not modelled. Each property's own messages keep their order.
- `__DIR__` is the `dir` parameter of the configuration. `createService` takes it and the collaborators as extra parameters.
- Service.VerifactuService.GenerateInvoiceQr: its only contract is the lemma Verifactu.CreatedServiceQrBaseUrl about the base URL. The QR content is the renderer's.
- HashGenerator.BuildDataString, HashGenerator.Generate: every field is taken to be a string. Under `strict_types`, PHP raises a TypeError when `trim` is given a null field (a missing timestamp or identifier), and the model does not have that error path.
- HashGenerator.CollisionFree: SHA-256 and base64 are assumed injective so that the chain lemmas can be stated. A 32-byte digest cannot be injective on all strings, so those lemmas hold only up to hash collisions.
- Service.VerifactuService.GenerateInvoiceQr: the default destination `"string"` and renderer `"gd"` stand for `QrGeneratorService::DESTINATION_STRING` and `QrGeneratorService::RENDERER_GD`, whose values are set in QrGeneratorService, which is not part of this model.
- Concurrency, persistence and logging are absent from the source and not modelled.
