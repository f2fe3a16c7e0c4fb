# Fleet tracking core: OsmAnd decoding, company records, reports

This project models, in Dafny, four parts of a fleet-tracking server, and
proves properties of the model:

- **The OsmAnd protocol decoder.** It turns one HTTP request from a phone
  tracker into a `Position`. The `Content-Type` header picks the decoder:
  - a request whose header starts with `application/json` is read as a
    structured JSON document (`OsmAndJson`);
  - any other request is read as query-string or form pairs
    (`OsmAndQuery`).

  The query decoder walks the pairs in order. It resolves the device from
  `id`/`deviceid` and answers BAD_REQUEST at the first unknown one. It
  forwards notification tokens only once a device is known. It coerces
  timestamps, coordinates, cell towers, Wi-Fi access points and free-form
  attributes. At the end it fills in the time, the network and the last
  known location, and answers OK with the first queued command.
- **The company resource.**
  - `validateCompany`: required fields, plus email and phone patterns.
  - `createCompany` and `updateCompany`: permission gate, the setters that
    copy a JSON request into a company, validation, the duplicate-email
    query, and the store write.
- **Three reports.**
  - *Fuel* (`FuelReport`): per device, odometer distance, fuel consumed as
    the sum of drops between consecutive positions, and litres per 100 km.
  - *EV metrics* (`EvMetricsReport`): one item per position carrying an
    electric-vehicle attribute.
  - *Driver income* (`DriverIncomeReport`): income records filtered by
    driver, date range, period and company. They are either joined with the
    driver table or summed per driver.

## How it is modelled

- **Parameters instead of collaborators.**
  - Device-session lookup, Double/ISO date/pattern date parsing, JSON
    parsing, unit conversion, last-known-location lookup, the command
    queue and the current time are fields of an `Env` value.
  - Storage tables are sequences passed in.
  - The user lookup, the accessible devices and the period-limit check are
    parameters.
- **Methods proved against functions.** Each loop of the source is a
  method proved against a specification function, and the lemmas state
  the source's promises about that function. Examples:
  - `DecodeQuery`'s nested loop against `QuerySpec`, a fold over the
    flattened key/value pairs;
  - the fuel loop against `FuelConsumed`;
  - the driver cache loop against `CacheAfter`/`LookupsAfter`.
- **Java integer semantics.** `long` and `int` arithmetic is written out
  where it matters:
  - the `timestamp * 1000` multiplication wraps in 64 bits;
  - `(int)` casts truncate toward zero;
  - `Long.parseLong`/`Integer.parseInt` are modelled digit by digit with
    their range checks.
- **Java strings.** `String.split(",")` drops trailing empty strings, and
  `trim()` strips every character up to U+0020. Both are modelled exactly.

### Behaviour worth knowing

- **Timestamp wrap-around.** A `timestamp` of `-9223372036854775808`
  seconds is below `Integer.MAX_VALUE`. It is multiplied by 1000 in 64
  bits and becomes 0 (`OsmAndFields.ScaleTimestampWrapsAtLongMin`).
- **Industry message on create.** On create, a non-numeric `industryId`
  is reported as "Industry is required", never "Industry ID must be a
  number". The setter leaves the new company's industry at 0, and the
  validator then overwrites the setter's message under the same key
  (`CompanyResource.CreateIndustryRequired`). On update, the setter's
  message survives whenever the stored industry is positive.
- **Email messages.** An email made only of spaces gets "Company email is
  required". The duplicate-email query still runs for it, since the
  email is non-empty. A clash replaces the message with "This email
  address is already in use".
- **Driver cache.** The driver cache of the income reports only stores
  drivers that exist. A driver id that has no driver row is looked up
  again for every record that names it (`DriverIncomeReport.LookupCount`).
  The result is unaffected (`DriverIncomeReport.ItemsAreJoin`).
- **Malformed query values.** A malformed typed value throws and ends the
  decode: a non-numeric `lat` (OsmAndProtocolDecoder.java:118-128), a
  `cell` with too few fields, a `wifi` without a comma. The model returns
  `Failed`, and the tokens forwarded before it stand.
- **Empty strings.** `Position.set` with a string stores nothing when the
  string is empty. An empty `driverUniqueId`, an empty value of an unknown
  key, or an empty JSON event, activity type or alarm leaves its attribute
  unset. An empty location alarm still hides the alarm in the extras.

## Model

| member | source | states |
|---|---|---|
| OsmAndJson.Decode | src/main/java/org/traccar/protocol/OsmAndProtocolDecoder.java:56-62 | A request whose Content-Type starts with `application/json` (case-sensitive) is decoded as JSON; any other request, or one with no header, is decoded as query/form pairs |
| OsmAndJson.DispatchExamples | src/main/java/org/traccar/protocol/OsmAndProtocolDecoder.java:57-58 | Examples of the prefix test: a charset suffix is accepted; no header, a form type, upper case and a truncated type are refused |
| OsmAndQuery.DecodeQuery | src/main/java/org/traccar/protocol/OsmAndProtocolDecoder.java:65-216 | The nested loop over the parameters and their values computes exactly `QuerySpec`: the URI's parameters, or the form body's when the URI has none, walked pair by pair and then finished |
| OsmAndQuery.DecodeValues | src/main/java/org/traccar/protocol/OsmAndProtocolDecoder.java:83-183 | The inner loop over one key's values extends the walk by exactly those pairs, stopping at the first pair that ends the decode |
| OsmAndQuery.DecodeParameter | src/main/java/org/traccar/protocol/OsmAndProtocolDecoder.java:84-182 | The switch on one key is the `Step` of the walk; an early return keeps the tokens forwarded so far, and a continuing step only appends to them |
| OsmAndQuery.FinishQuery | src/main/java/org/traccar/protocol/OsmAndProtocolDecoder.java:186-215 | The end-of-decode steps compute `Finish`: time defaulting, network attachment, coordinates or last location, then OK with the queued command's data or BAD_REQUEST without a device |
| OsmAndQuery.RunHaltedAbsorbs | src/main/java/org/traccar/protocol/OsmAndProtocolDecoder.java:88-91 | Once the decode has returned, the pairs after it change nothing |
| OsmAndCommon.ReadQueued | src/main/java/org/traccar/protocol/OsmAndProtocolDecoder.java:203 | Reading at most `count` queued commands yields a prefix of the queue, of length `count` unless the queue is shorter |
| OsmAndFields.ScaleTimestamp | src/main/java/org/traccar/protocol/OsmAndProtocolDecoder.java:104-107 | An integer below Integer.MAX_VALUE is seconds and is scaled by 1000; one at or above it is kept as milliseconds; the result is a 64-bit value |
| OsmAndFields.ScaleTimestampWrapsAtLongMin | src/main/java/org/traccar/protocol/OsmAndProtocolDecoder.java:104-107 | The most negative `long` wraps to 0 when scaled, unlike the true product |
| OsmAndFields.ParseTimestamp | src/main/java/org/traccar/protocol/OsmAndProtocolDecoder.java:102-117 | Integer text first; otherwise ISO-8601 when the text has a `T`, else the `yyyy-MM-dd HH:mm:ss` pattern; a failure is a date-format error |
| OsmAndFields.TimestampSeconds | src/main/java/org/traccar/protocol/OsmAndProtocolDecoder.java:102-108 | Any decimal seconds count below Integer.MAX_VALUE becomes that count times 1000 milliseconds |
| OsmAndFields.TimestampMillis | src/main/java/org/traccar/protocol/OsmAndProtocolDecoder.java:102-108 | A decimal count from Integer.MAX_VALUE up to Long.MAX_VALUE is taken as milliseconds unchanged |
| OsmAndFields.ParseIntFields | src/main/java/org/traccar/protocol/OsmAndProtocolDecoder.java:130-144 | Reading n comma fields with Integer.parseInt succeeds exactly when there are n fields and each parses, giving their values; otherwise an index or number-format error |
| OsmAndFields.ParseCell | src/main/java/org/traccar/protocol/OsmAndProtocolDecoder.java:129-140 | More than four fields give a tower with signal strength from the first five; otherwise the first four fields, with index and number errors as Java raises them |
| OsmAndFields.ParseWifi | src/main/java/org/traccar/protocol/OsmAndProtocolDecoder.java:141-145 | The MAC is the first field with every `-` turned into `:`; the signal is the second field parsed as an int |
| OsmAndFields.ParseLocation | src/main/java/org/traccar/protocol/OsmAndProtocolDecoder.java:124-128 | "lat,lon": the first two comma fields parsed as doubles, failing when either is missing or malformed |
| OsmAndFields.ValidFlagExamples | src/main/java/org/traccar/protocol/OsmAndProtocolDecoder.java:99-101 | `valid` is true for "true" in any case and for "1", false for "yes", "0", "01", "" and "truee" |
| OsmAndFields.CoerceAttribute | src/main/java/org/traccar/protocol/OsmAndProtocolDecoder.java:171-181 | An unknown key's value is a number exactly when it parses as a double, else a boolean exactly for "true"/"false", else the text itself |
| OsmAndFields.CoerceAttributeLossless | src/main/java/org/traccar/protocol/OsmAndProtocolDecoder.java:174-180 | A value that is not a number is recovered verbatim from the boolean or string it is stored as |
| OsmAndQueryFacts.RunIdentity | src/main/java/org/traccar/protocol/OsmAndProtocolDecoder.java:85-93 | While the decode continues, the device id is that of the last id/deviceid pair, or 0 when there is none |
| OsmAndQueryFacts.RunTokens | src/main/java/org/traccar/protocol/OsmAndProtocolDecoder.java:94-98 | The tokens forwarded are those of the notificationToken pairs seen after a device was identified, each with the id current at that point, in order |
| OsmAndQueryFacts.TokensHavePositiveIds | src/main/java/org/traccar/protocol/OsmAndProtocolDecoder.java:95-97 | Every forwarded token names a positive device id |
| OsmAndQueryFacts.NoIdentityNoTokens | src/main/java/org/traccar/protocol/OsmAndProtocolDecoder.java:94-98 | Without any id/deviceid pair no token is forwarded |
| OsmAndQueryFacts.RunLatitude | src/main/java/org/traccar/protocol/OsmAndProtocolDecoder.java:118-128 | The pending latitude is that of the last `lat` or `location` pair (last writer wins) |
| OsmAndQueryFacts.RunLongitude | src/main/java/org/traccar/protocol/OsmAndProtocolDecoder.java:121-128 | The pending longitude is that of the last `lon` or `location` pair |
| OsmAndQueryFacts.RunTime | src/main/java/org/traccar/protocol/OsmAndProtocolDecoder.java:102-117 | The time set so far is that of the last `timestamp` pair, if any |
| OsmAndQueryFacts.RunValid | src/main/java/org/traccar/protocol/OsmAndProtocolDecoder.java:76-101 | The validity flag starts true and then follows the last `valid` pair |
| OsmAndQueryFacts.RunAttributes | src/main/java/org/traccar/protocol/OsmAndProtocolDecoder.java:159-181 | Every attribute holds the value of the last pair that writes it; a pair whose value is an empty string writes nothing |
| OsmAndQueryFacts.RunNetwork | src/main/java/org/traccar/protocol/OsmAndProtocolDecoder.java:129-145 | The towers and access points collected are those of all `cell` and `wifi` pairs, in order |
| OsmAndQueryFacts.NoIdentityWalk | src/main/java/org/traccar/protocol/OsmAndProtocolDecoder.java:85-98 | With no id/deviceid pair the device id stays 0 and the token list stays empty |
| OsmAndQueryFacts.HaltedOutcomes | src/main/java/org/traccar/protocol/OsmAndProtocolDecoder.java:87-145 | A decode that stops early either refuses the request or fails with a parse error |
| OsmAndQueryFacts.UnresolvedIdRefuses | src/main/java/org/traccar/protocol/OsmAndProtocolDecoder.java:87-91 | The first unresolvable id answers BAD_REQUEST with no position; the pairs after it are ignored, and the tokens forwarded before it stand |
| OsmAndQueryFacts.NoIdentityNoPosition | src/main/java/org/traccar/protocol/OsmAndProtocolDecoder.java:201-215 | A request without any id/deviceid pair never yields a position and forwards no token |
| OsmAndQueryFacts.AcceptedIdentified | src/main/java/org/traccar/protocol/OsmAndProtocolDecoder.java:201-211 | A position is returned only with a non-zero device id from the last id pair, answered OK with the first queued command's data or a bare OK |
| OsmAndQueryFacts.AcceptedNetwork | src/main/java/org/traccar/protocol/OsmAndProtocolDecoder.java:190-192 | The network is attached exactly when some `cell` or `wifi` pair was given, and holds their towers and access points |
| OsmAndQueryFacts.FinishNetwork | src/main/java/org/traccar/protocol/OsmAndProtocolDecoder.java:190-192 | The end-of-decode step attaches the collected network exactly when it is non-empty |
| OsmAndQueryFacts.AcceptedTime | src/main/java/org/traccar/protocol/OsmAndProtocolDecoder.java:186-188 | When both coordinates were given, the device time is that of the last `timestamp` pair, or the time of decoding |
| OsmAndQueryFacts.AcceptedLocation | src/main/java/org/traccar/protocol/OsmAndProtocolDecoder.java:194-199 | With both coordinates the fix takes them, the validity flag and the device time; otherwise the fix and the device time are what the last-location lookup returns for this position, asked with the device time the pairs gave (or the time of decoding) |
| OsmAndQueryFacts.AcceptedAttributes | src/main/java/org/traccar/protocol/OsmAndProtocolDecoder.java:159-181 | Every attribute of a returned position is that of the last pair writing it; an empty string writes nothing |
| OsmAndJson.DecodeJson | src/main/java/org/traccar/protocol/OsmAndProtocolDecoder.java:218-295 | The JSON decoder computes `JsonSpec` |
| OsmAndJson.JsonAccepted | src/main/java/org/traccar/protocol/OsmAndProtocolDecoder.java:218-295 | A position is produced exactly for a parsed document whose device resolves, whose location is complete and whose timestamp parses; it carries the device, with a bare OK, and with coordinates it carries the timestamp as device time |
| OsmAndJson.JsonUnknownDevice | src/main/java/org/traccar/protocol/OsmAndProtocolDecoder.java:224-228 | An unknown device is answered NOT_FOUND, whatever the location holds |
| OsmAndJson.JsonCoordinates | src/main/java/org/traccar/protocol/OsmAndProtocolDecoder.java:237-253 | With coordinates the fix is valid; speed (in knots) and course are set only when non-negative, and accuracy only when one of them is |
| OsmAndJson.JsonNoCoordinates | src/main/java/org/traccar/protocol/OsmAndProtocolDecoder.java:254-256 | Without coordinates the fix and the device time are what the last-location lookup returns for the identified, time-stamped position, asked with no device time |
| OsmAndJson.JsonAttributesOfLocation | src/main/java/org/traccar/protocol/OsmAndProtocolDecoder.java:258-291 | The position's attributes are exactly those its location yields |
| OsmAndJson.LocationAttributeKeys | src/main/java/org/traccar/protocol/OsmAndProtocolDecoder.java:258-291 | Only the eight keys of the structured format are ever set |
| OsmAndJson.LocationEvent | src/main/java/org/traccar/protocol/OsmAndProtocolDecoder.java:258-260 | The event is stored exactly when present and not empty, as its string |
| OsmAndJson.LocationMotion | src/main/java/org/traccar/protocol/OsmAndProtocolDecoder.java:261-263 | The motion flag is stored exactly when present |
| OsmAndJson.LocationOdometer | src/main/java/org/traccar/protocol/OsmAndProtocolDecoder.java:264-266 | The odometer is stored exactly when present, as an int |
| OsmAndJson.LocationMock | src/main/java/org/traccar/protocol/OsmAndProtocolDecoder.java:267-269 | The mock flag is stored exactly when present |
| OsmAndJson.LocationActivity | src/main/java/org/traccar/protocol/OsmAndProtocolDecoder.java:270-272 | The activity type is stored exactly when an activity is present and its type is not empty |
| OsmAndJson.LocationBattery | src/main/java/org/traccar/protocol/OsmAndProtocolDecoder.java:273-282 | The battery level is stored as `(int)(level * 100)` exactly when non-negative; the charge flag is set (true) exactly when charging |
| OsmAndJson.LocationAlarm | src/main/java/org/traccar/protocol/OsmAndProtocolDecoder.java:284-291 | The location's own alarm wins over the one in its extras, even when empty; the key is set exactly when the winning alarm is present and not empty |
| JavaText.Split | src/main/java/org/traccar/protocol/OsmAndProtocolDecoder.java:125-142 | `split(",")` yields the separator-free pieces of the text, trailing empty pieces dropped |
| JavaText.SplitAll | src/main/java/org/traccar/protocol/OsmAndProtocolDecoder.java:125-142 | The pieces between separators, joined back with the separator, give the original text |
| JavaText.Replace | src/main/java/org/traccar/protocol/OsmAndProtocolDecoder.java:144 | `replace('-', ':')` changes exactly the `-` characters and leaves none |
| JavaText.ParseLongOfDecimalText | src/main/java/org/traccar/protocol/OsmAndProtocolDecoder.java:104 | `Long.parseLong` reads back every non-negative `long` written in decimal |
| JavaText.DoubleToInt | src/main/java/org/traccar/protocol/OsmAndProtocolDecoder.java:277 | The `(int)` cast gives an int, truncating a non-negative value toward zero |
| JavaText.TrimEmptyIffBlank | src/main/java/org/traccar/api/resource/CompanyResource.java:60-88 | `trim().isEmpty()` holds exactly when every character is at most U+0020 |
| CompanyResource.MatchesEmailIffPattern | src/main/java/org/traccar/api/resource/CompanyResource.java:48-49 | The search-free email matcher accepts exactly the strings of the form local@domain.top that the regular expression describes |
| CompanyResource.IndexOfFindsFirst | src/main/java/org/traccar/api/resource/CompanyResource.java:48-49 | `indexOf` finds the first occurrence, or reports that there is none |
| CompanyResource.LastIndexOfFindsLast | src/main/java/org/traccar/api/resource/CompanyResource.java:48-49 | `lastIndexOf` finds the last occurrence, or reports that there is none |
| CompanyResource.EmailAccepted | src/main/java/org/traccar/api/resource/CompanyResource.java:48-49 | "info@acme.com" matches |
| CompanyResource.EmailShortTopLevelRefused | src/main/java/org/traccar/api/resource/CompanyResource.java:48-49 | A one-letter top-level domain is refused |
| CompanyResource.EmailEmptyDomainRefused | src/main/java/org/traccar/api/resource/CompanyResource.java:48-49 | An empty domain label is refused |
| CompanyResource.EmailSecondAtRefused | src/main/java/org/traccar/api/resource/CompanyResource.java:48-49 | A second `@` is refused |
| CompanyResource.PhoneExamples | src/main/java/org/traccar/api/resource/CompanyResource.java:50-51 | An optional `+` and 10 to 15 digits are accepted; 9 or 16 digits, a dash, a doubled `+` and the empty string are refused |
| CompanyResource.ValidIffNoMessage | src/main/java/org/traccar/api/resource/CompanyResource.java:58-89 | A company is valid exactly when no check has a message for it |
| CompanyResource.NoMessagesIffValid | src/main/java/org/traccar/api/resource/CompanyResource.java:58-89 | All the checks together produce no message exactly when the company is valid |
| CompanyResource.RequireText | src/main/java/org/traccar/api/resource/CompanyResource.java:60-74 | A null or blank required text puts its message under its key; otherwise the errors are unchanged |
| CompanyResource.RequireIndustry | src/main/java/org/traccar/api/resource/CompanyResource.java:68-70 | A non-positive industry puts "Industry is required" under `industryId` |
| CompanyResource.CheckEmail | src/main/java/org/traccar/api/resource/CompanyResource.java:77-81 | A blank email is reported as required, and a non-blank one that does not match as invalid |
| CompanyResource.CheckPhone | src/main/java/org/traccar/api/resource/CompanyResource.java:84-88 | A blank phone is reported as required, and a non-blank one that does not match as invalid |
| CompanyResource.ValidateCompany | src/main/java/org/traccar/api/resource/CompanyResource.java:58-89 | The errors are merged with one message per failed check, each under its own key; the result is empty exactly when it was empty and the company is valid |
| CompanyResource.MergedEmpty | src/main/java/org/traccar/api/resource/CompanyResource.java:58-89 | Merging the messages leaves the map empty exactly when it was empty and the company is valid |
| CompanyResource.LogoLimit | src/main/java/org/traccar/api/resource/CompanyResource.java:181 | A logo is too large exactly when it is longer than 2789212 characters, i.e. more than 2 MiB times 1.33 |
| CompanyResource.AssignLeading | src/main/java/org/traccar/api/resource/CompanyResource.java:136-142 | The string setters before `industryId` throw exactly when a present member is not a string; otherwise they copy each present member |
| CompanyResource.AssignTrailing | src/main/java/org/traccar/api/resource/CompanyResource.java:152-175 | The same for the string setters after `industryId` |
| CompanyResource.ApplyData | src/main/java/org/traccar/api/resource/CompanyResource.java:136-187 | The setters throw exactly when some cast fails, with the first failing setter's exception; otherwise they yield the company the request describes and their own errors |
| CompanyResource.AppliedFromRequest | src/main/java/org/traccar/api/resource/CompanyResource.java:136-187 | The company the setters build is the one the request describes: each present member copied, each absent one kept |
| CompanyResource.SetterErrorsOfData | src/main/java/org/traccar/api/resource/CompanyResource.java:144-187 | The setters report a non-numeric industryId and an oversized logo, and nothing else |
| CompanyResource.WithEmail | src/main/java/org/traccar/api/resource/CompanyResource.java:194-204 | The duplicate query returns exactly the stored rows with that email, other than the company itself on update |
| CompanyResource.FindCompany | src/main/java/org/traccar/api/resource/CompanyResource.java:256-266 | Looking up by id finds a row with that id, or none exactly when no row has it |
| CompanyResource.ReplaceRow | src/main/java/org/traccar/api/resource/CompanyResource.java:361 | Updating replaces every row with the company's id and keeps the others |
| CompanyResource.CheckRequest | src/main/java/org/traccar/api/resource/CompanyResource.java:189-210 | A storage failure during the duplicate query gives no error map; otherwise the setter errors, the validator's messages and the duplicate message are merged |
| CompanyResource.RequestErrorsEmpty | src/main/java/org/traccar/api/resource/CompanyResource.java:189-216 | No error is reported exactly when the setters reported none, the company is valid and the email is not taken |
| CompanyResource.ValidChecksDuplicate | src/main/java/org/traccar/api/resource/CompanyResource.java:194 | A valid company's email is non-empty, so the duplicate query always runs for it |
| CompanyResource.Submit | src/main/java/org/traccar/api/resource/CompanyResource.java:136-226 | The steps shared by create and update, after the permission gate, compute `SubmitSpec` |
| CompanyResource.CreateCompany | src/main/java/org/traccar/api/resource/CompanyResource.java:119-227 | The reply and the store after createCompany are those of `CreateSpec` |
| CompanyResource.CreateForbidden | src/main/java/org/traccar/api/resource/CompanyResource.java:124-130 | Create is forbidden exactly for callers who are neither super users nor administrators |
| CompanyResource.CreatedIffAcceptable | src/main/java/org/traccar/api/resource/CompanyResource.java:119-227 | A company is created exactly when the caller may create, no setter throws, storage works, there are no setter errors, the result is valid and its email is free; it is the requested company with the next id, appended to the store; otherwise the store is unchanged |
| CompanyResource.SubmitBadRequest | src/main/java/org/traccar/api/resource/CompanyResource.java:212-216 | A BAD_REQUEST always carries a non-empty error map, and a request with a non-numeric industryId or an oversized logo never succeeds |
| CompanyResource.SubmitIndustryMessage | src/main/java/org/traccar/api/resource/CompanyResource.java:144-150 | A non-numeric industryId gives a BAD_REQUEST whose `industryId` message is the setter's, or "Industry is required" when the base industry is not positive |
| CompanyResource.SubmitLogoMessage | src/main/java/org/traccar/api/resource/CompanyResource.java:177-187 | An oversized logo is always reported under `logo` and is never stored |
| CompanyResource.RequestErrorsIndustry | src/main/java/org/traccar/api/resource/CompanyResource.java:68-70 | The validator's message under `industryId` overwrites the setter's exactly when the industry is not positive |
| CompanyResource.CreateIndustryRequired | src/main/java/org/traccar/api/resource/CompanyResource.java:136-150 | On create, a non-numeric industryId is reported as "Industry is required" |
| CompanyResource.UpdateCompany | src/main/java/org/traccar/api/resource/CompanyResource.java:242-368 | The reply and the store after updateCompany are those of `UpdateSpec` |
| CompanyResource.UpdateForbidden | src/main/java/org/traccar/api/resource/CompanyResource.java:247-254 | A super user may update any company, an administrator only their own, and nobody else any |
| CompanyResource.UpdatedIffAcceptable | src/main/java/org/traccar/api/resource/CompanyResource.java:242-368 | NOT_FOUND exactly for a permitted caller and a missing id; an update exactly when permitted, found, no setter throws, storage works, there are no errors and the email is free; the updated row keeps its id and replaces the stored one; otherwise the store is unchanged |
| ReportStorage.PositionsBetween | src/main/java/org/traccar/reports/FuelReportProvider.java:75-79 | The query returns only the device's positions with a fix time in [from, to], and every such position |
| FuelReport.Drop | src/main/java/org/traccar/reports/FuelReportProvider.java:126-131 | A step contributes a non-negative amount, positive exactly when both levels are known and the level fell |
| FuelReport.FuelConsumedTelescopes | src/main/java/org/traccar/reports/FuelReportProvider.java:121-132 | When the level never rises, the fuel consumed is the first level minus the last |
| FuelReport.FuelConsumedAtLeastNetDrop | src/main/java/org/traccar/reports/FuelReportProvider.java:121-132 | When every level is known, the fuel consumed is at least the net drop, since refuelling is not subtracted |
| FuelReport.SumDrops | src/main/java/org/traccar/reports/FuelReportProvider.java:121-132 | The loop over consecutive positions computes `FuelConsumed`, the sum of the drops |
| FuelReport.Rate | src/main/java/org/traccar/reports/FuelReportProvider.java:136-140 | With a positive distance, rate times distance is 100 times the fuel consumed (litres per 100 km); otherwise the rate stays 0 |
| FuelReport.FuelItemMeaning | src/main/java/org/traccar/reports/FuelReportProvider.java:86-140 | The item names the device and the period; odometers come from the first and last positions (0 when absent); distance is their difference; fuel consumed and spent fuel are the sum of the drops; the rate is per 100 km |
| FuelReport.CalculateFuelData | src/main/java/org/traccar/reports/FuelReportProvider.java:71-144 | At most one item per device, none exactly when the device has no position in the period |
| FuelReport.FuelReportItems | src/main/java/org/traccar/reports/FuelReportProvider.java:59-69 | At most one item per accessible device, each built from that device's positions in the period |
| FuelReport.GetObjects | src/main/java/org/traccar/reports/FuelReportProvider.java:59-69 | A report exists exactly when the period is allowed; it concatenates the items of the accessible devices in order |
| FuelReport.FuelExample | src/test/java/org/traccar/reports/FuelReportProviderTest.java:105-115 | Levels 80, 70, 60 over odometer 1000 to 1100 give distance 100, 20 consumed and a rate of 20 per 100 km |
| EvMetricsReport.HasEvAttributesIffKey | src/main/java/org/traccar/reports/EvMetricsReport.java:129-139 | A position counts exactly when it has one of the eight electric-vehicle keys |
| EvMetricsReport.EvItemMetrics | src/main/java/org/traccar/reports/EvMetricsReport.java:74-120 | The item names the device and copies the fix time and the coordinates (zero when absent); each numeric metric is set exactly when its attribute holds a number, with that number; the trouble codes exactly when it holds a string; the charging flag exactly when it holds a boolean |
| EvMetricsReport.EvIndexes | src/main/java/org/traccar/reports/EvMetricsReport.java:71-73 | The positions kept are exactly those with an electric-vehicle attribute, in order |
| EvMetricsReport.EvItemsSelectEvSamples | src/main/java/org/traccar/reports/EvMetricsReport.java:71-124 | The items are, in order, one per position with an electric-vehicle attribute, built from that position |
| EvMetricsReport.GetEvMetrics | src/main/java/org/traccar/reports/EvMetricsReport.java:55-127 | The per-device loop computes `EvMetrics`, including the early return when there are no positions |
| EvMetricsReport.EvReportItems | src/main/java/org/traccar/reports/EvMetricsReport.java:44-53 | Every item of the report comes from an accessible device's position in the period that has an electric-vehicle attribute |
| EvMetricsReport.GetObjects | src/main/java/org/traccar/reports/EvMetricsReport.java:44-53 | The report concatenates the items of the accessible devices in order |
| DriverIncomeReport.BuildConditions | src/main/java/org/traccar/reports/DriverIncomeReport.java:67-88 | A condition is built exactly when wanted: a positive driver id, both dates, a non-empty period, and a company for a non-super user who belongs to one |
| DriverIncomeReport.WantedConditionsAdmit | src/main/java/org/traccar/reports/DriverIncomeReport.java:70-94 | A record meets all the built conditions exactly when the request admits it |
| DriverIncomeReport.SelectIsFiltered | src/main/java/org/traccar/reports/DriverIncomeReport.java:91-94 | The storage query returns exactly the admitted records, in table order |
| DriverIncomeReport.FilteredAdmitted | src/main/java/org/traccar/reports/DriverIncomeReport.java:70-94 | A record is selected exactly when it is in the table and admitted, so a company user sees only their company's income |
| DriverIncomeReport.FindDriver | src/main/java/org/traccar/reports/DriverIncomeReport.java:100-101 | The driver lookup returns a driver with that id from the table |
| DriverIncomeReport.FindDriverMissing | src/main/java/org/traccar/reports/DriverIncomeReport.java:100-104 | The lookup finds nothing exactly when no driver has that id |
| DriverIncomeReport.CacheDrivers | src/main/java/org/traccar/reports/DriverIncomeReport.java:97-106 | The cache loop computes the cache and the sequence of lookups it makes |
| DriverIncomeReport.CacheHoldsFoundDrivers | src/main/java/org/traccar/reports/DriverIncomeReport.java:97-106 | The cache holds exactly the records' drivers that exist, each under its own id |
| DriverIncomeReport.LookupCount | src/main/java/org/traccar/reports/DriverIncomeReport.java:98-105 | An existing driver is looked up once if named at all; a missing one is looked up once per record naming it |
| DriverIncomeReport.EmitItems | src/main/java/org/traccar/reports/DriverIncomeReport.java:108-121 | The item loop emits one item per record whose driver is cached |
| DriverIncomeReport.ItemsAreJoin | src/main/java/org/traccar/reports/DriverIncomeReport.java:97-121 | The items built through the cache are the inner join of the records with the driver table |
| DriverIncomeReport.JoinedItems | src/main/java/org/traccar/reports/DriverIncomeReport.java:109-121 | Each item copies its record and names the record's existing driver; when every driver exists there is one item per record |
| DriverIncomeReport.GetObjects | src/main/java/org/traccar/reports/DriverIncomeReport.java:59-124 | Without a user there is no result; otherwise the result is the admitted records joined with their drivers, in order |
| DriverIncomeReport.TotalsAreSums | src/main/java/org/traccar/reports/DriverIncomeReport.java:169-173 | The totals map has one entry per driver named, holding the sum of that driver's amounts |
| DriverIncomeReport.TotalOfAbsent | src/main/java/org/traccar/reports/DriverIncomeReport.java:169-173 | A driver named by no record totals 0 |
| DriverIncomeReport.SumByDriver | src/main/java/org/traccar/reports/DriverIncomeReport.java:169-173 | The merge loop computes the totals map |
| DriverIncomeReport.EmitSummary | src/main/java/org/traccar/reports/DriverIncomeReport.java:175-186 | Visiting the totals in any order gives distinct drivers; each item is a cached driver with its total and the period, and every cached driver with a total has an item |
| DriverIncomeReport.GetSummary | src/main/java/org/traccar/reports/DriverIncomeReport.java:126-189 | Without a user there is no result; otherwise at most one item per driver, one for every existing driver with admitted records, carrying the sum of their amounts and the requested period, and none for a missing driver |

## Left out

- HTTP and Netty plumbing is not modelled: reading the request, sending responses, channels and remote addresses. Responses are returned as values.
- These collaborators are oracles in `Env`:
  - `QueryStringDecoder`'s percent-decoding;
  - the JSON reader;
  - `Double.parseDouble`, `DateUtil.parseDate` and `SimpleDateFormat`;
  - `convertSpeed` and `UnitsConverter.knotsFromMps`;
  - `getLastLocation`, the device-session lookup and the command queue;
  - `new Date()`.
- Query parameters are a sequence in the decoder map's iteration order. The map is a `LinkedHashMap`, so that order is the order of first appearance.
- Doubles are modelled as reals. Rounding, infinities, NaN and summation order are not captured.
- `Integer.parseInt`/`Long.parseLong` accept ASCII digits only; Java's non-ASCII Unicode digits are not modelled.
- `String` lengths count characters, not UTF-16 code units. This matters for the logo size limit only with characters outside the Basic Multilingual Plane.
- The email and phone regular expressions are modelled by search-free predicates. For the email, an equivalence with the pattern is proved; the phone pattern is simple enough to state directly.
- The duplicate-email query compares emails by exact string equality. Database collation (for example case-insensitive comparison) is not modelled.
- Storage failures in the company resource are two flags: the reads fail or the write fails. Partial failures and exception messages are not modelled.
- The storage queries' orderings (`Order("date")`, `Order("fixTime")`) are not modelled: the tables passed in are taken to be in that order already. The fuel query has no order clause, and the table order is used.
- These are parameters:
  - `ReportUtils.checkPeriodLimit` is the flag `periodAllowed` (a refused period gives no report, standing for the exception);
  - `DeviceUtil.getAccessibleDevices` is the device sequence passed in;
  - the user lookup of the income reports is an `Option`. `None` stands for the missing user whose role access throws.
- Java `Date` values are integer milliseconds.
- `FuelReportItem` and `EvMetricsReportItem` fields that these reports never set are not part of the modelled items.
- The order of the summary items is not modelled. The source iterates a `HashMap`, so the model visits its keys in an arbitrary order.
- Excel export, the other resource endpoints (listing, deleting, the plain `add`/`update`) and concurrency between requests are not part of this model.
- `OsmAndQueryFacts.AcceptedLocation`: when either coordinate is missing, it states only that the fix and the device time are the last-location lookup's answer. The lookup itself is an oracle, so the copied coordinates and the time it picks are not spelled out.
- `getLastLocation` also marks the position outdated. The model has no outdated flag.
- `OsmAndCommon.ReadQueued`: reading the queued commands does not consume them. The queue is a read-only function of `Env`, so a second decode for the same device would see the same command.
- The `ExtendedModel` and `Position` classes are not part of this model. Attributes are typed values, and their getters (`GetDouble`, `GetString`, `GetBoolean`) are typed reads that give nothing for a missing key or a value of another type. Traccar's getters also convert between types (a numeric string read as a double, say), and `getDouble` yields 0.0 for a missing key; neither is captured. Since the EV report's metrics come from these getters, the model reports a missing number as absent where the source may report 0.0.
