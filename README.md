# ornitho-client-python, modelled in Dafny

This project models the core of `ornitho`, a Python client for the
Biolovision ornitho REST API. It covers:

- the request layer (`APIRequester`): it merges the credentials, rewrites
  query parameters and body values, sends one HTTP request per page, reads
  the reply by status and content type, turns a page into a list of records,
  and follows pagination keys;
- the exception hierarchy and how it is rendered;
- the abstract model classes: base, listable, searchable, createable,
  updateable and deletable;
- the concrete model classes whose behaviour goes beyond plain field
  access: `Form`, `Observation`, `Place`, `Observer`, `Protocol`, `Site`,
  `Media`, `Field`, `FieldOption`, `LocalAdminUnit`, `Family`, `Right`,
  `Detail`, `Relation` and `Playback`.

How the model is built:

- A record the service returns is a `Values.Value`. This is a JSON-like
  datatype with dictionaries kept as ordered association lists, as Python
  dictionaries are. Indexing, assignment, deletion and `in` follow Python's
  outcomes, including its exceptions (`KeyError`, `IndexError`,
  `TypeError`, `AttributeError`, `ValueError`).
- Every model object is a `BaseModel.Model`, a class with `id`,
  `rawData` (`_raw_data`) and `previous` (`_previous`) fields. Classes with
  more instance state (`Form`, `Observation`, `Place`, `Observer`, ...)
  wrap one `Model` and add their own mutable fields (caches, the form's
  observation list).
- The network is replaced by replayed replies:
  - At the HTTP level, a `Transport` replays canned `RawResponse`s and logs
    every `SentRequest`.
  - Above the requester, a `Gateway` logs each call a model makes and
    answers it with the next canned reply.
  - `ApiRequester.Fetch` describes which replies a sequence of HTTP
    exchanges can produce.
- JSON decoding (`json.loads`) is a function parameter.
- A class's `get(id)` and `create_from_ornitho_json` are not part of the
  modelled code. Their results are a `Fetched(kind, id)` value and a
  `decode` parameter respectively.

Every method is proved against a specification function, and the
properties the client relies on are lemmas about those functions. These
properties include:

- round trips: `int(str(n))`, `dd.mm.yyyy` dates, form times, ISO
  timestamps, `str` of details, relations and playbacks, split/join;
- what each request carries;
- how paging concatenates pages and consumes replies;
- what each setter leaves unchanged.

## Model

| member | source | states |
|---|---|---|
| ApiException.AllAreAPIExceptions | ornitho/api_exception.py:37-46 | every exception class the client raises is a subclass of `APIException`, and no other class is a superclass of it |
| ApiException.Str | ornitho/api_exception.py:13-15 | `str(e)` is the reason phrase when it is non-empty and `<empty message>` otherwise; never empty |
| ApiException.ClassNameInjective | ornitho/api_exception.py:17-19 | the class name written by `repr` identifies the class |
| ApiException.ReprDeterminesClassAndStatus | ornitho/api_exception.py:17-19 | two exceptions with the same `repr` have the same class and the same HTTP status |
| ApiRequester.Configure | ornitho/api_requester.py:38-52 | each argument falls back to its module default when missing or empty; the first setting still missing raises `RuntimeError("<name> missing!")`, in the source's order; success iff all five are given |
| ApiRequester.ArgumentsOverrideDefaults | ornitho/api_requester.py:38-42 | a non-empty argument wins over the default; an empty or missing one yields the default |
| ApiRequester.DottedDateRoundTrip | ornitho/api_requester.py:238-241 | a date sent as `dd.mm.yyyy` parses back to the same day, month and year |
| ApiRequester.EncodingIsIdempotent | ornitho/api_requester.py:224-259 | rewriting parameters or body a second time changes nothing, so the recursive page request sends the same values |
| ApiRequester.EncodeParamsKeys | ornitho/api_requester.py:224-243 | rewriting keeps every key and rewrites each value (booleans to 1/0, dates and datetimes to `dd.mm.yyyy`); unique keys stay unique |
| ApiRequester.BaseQueryContents | ornitho/api_requester.py:213-222 | the query holds the credentials, `pagination_key` exactly when one is given and non-empty, and `short_version=1` exactly when asked for |
| ApiRequester.QueryContents | ornitho/api_requester.py:213-245 | a caller parameter is sent rewritten and overrides the base entry of the same name; otherwise the base entries are kept |
| ApiRequester.ErrorFor | ornitho/api_requester.py:156-169 | 401 raises `AuthenticationException`, 504 `GatewayTimeoutException`, any other status `APIHttpException`, each carrying the response |
| ApiRequester.NextKey | ornitho/api_requester.py:272-275 | the pagination key is the header's value, with an empty value read as none |
| ApiRequester.Receive | ornitho/api_requester.py:269-299 | a non-2xx status raises the error for it; a PDF gives the bytes, HTML gives the text, any other or a missing content type raises `ContentTypeException`; the key is always `NextKey` |
| ApiRequester.JsonFallback | ornitho/api_requester.py:282-291 | JSON is decoded as it is; failing that, without its first line; failing both, `JSONDecodeError` |
| ApiRequester.FormRecordsOfWellFormed | ornitho/api_requester.py:117-125 | a form yields its sightings in order, each with `form` set to a copy of the form that has the first sighting's date as `day`, no `sightings`, and every other entry unchanged |
| ApiRequester.TaggedDicts | ornitho/api_requester.py:123-125 | tagging dictionaries succeeds and sets `form` in each, in order |
| ApiRequester.AppendTagged | ornitho/api_requester.py:123-125 | the inner loop appends exactly the tagged sightings, or stops at the first failure |
| ApiRequester.AppendForm | ornitho/api_requester.py:118-125 | one form's loop body appends that form's records |
| ApiRequester.AppendForms | ornitho/api_requester.py:117-125 | the loop over `forms` appends the records of every form, form after form |
| ApiRequester.Unpack | ornitho/api_requester.py:109-129 | bytes pass through; a list is the records; under `data`, a dictionary gives its sightings and then its forms' sightings, anything else is taken as the records; any other value is a single record |
| ApiRequester.EncodeParamsInPlace | ornitho/api_requester.py:224-243 | the caller's dictionary is rewritten in place, and every rewritten value is assigned into the query |
| ApiRequester.EncodeBodyInPlace | ornitho/api_requester.py:247-259 | datetimes and dates in the caller's body are rewritten in place; booleans and everything else are left alone |
| ApiRequester.APIRequester.Create | ornitho/api_requester.py:18-55 | the constructor yields a requester for the merged settings, or the `RuntimeError` of `Configure` |
| ApiRequester.APIRequester.RequestRaw | ornitho/api_requester.py:181-299 | exactly one request is sent, with the outgoing query and payload, and the reply is interpreted by `Receive`; the caller's dictionaries are rewritten |
| ApiRequester.APIRequester.FirstPage | ornitho/api_requester.py:100-129 | `request_raw` followed by the flattening of the reply into a page |
| ApiRequester.APIRequester.Request | ornitho/api_requester.py:69-153 | the result, the requests sent and the replies consumed are exactly those of `Fetch` |
| ApiRequester.FollowUpSendsSameData | ornitho/api_requester.py:134-142 | the follow-up request sends the same query and body as the first |
| ApiRequester.SinglePage | ornitho/api_requester.py:133-153 | without `request_all`, or when no next key is named, exactly one request is sent and its page is the result |
| ApiRequester.FollowUpIff | ornitho/api_requester.py:133 | more than one request is sent iff the first page is a non-empty list of records with a next key and everything was asked for |
| ApiRequester.FetchSameAddress | ornitho/api_requester.py:101-108 | every request of a call goes to `api_base + url` with the method in lower case and the client's user agent |
| ApiRequester.FetchSends | ornitho/api_requester.py:134-142 | each request consumes one reply in order; running out of replies fails with a connection error |
| ApiRequester.PagesConcatenate | ornitho/api_requester.py:143-153 | a followed call returns this page's records and then the later ones; a PDF where records were expected raises `APIException` |
| ApiRequester.KeyOfFirstPage | ornitho/api_requester.py:153 | the key returned is the one the first page named |
| BaseModel.Model.constructor | ornitho/model/abstract/base_model.py:13-21 | a new model holds its id and empty `_raw_data` and `_previous` |
| BaseModel.Model.CreateFrom | ornitho/model/abstract/base_model.py:66-71 | `create_from` succeeds iff the record's id reads as an integer; the model holds that id and the record |
| BaseModel.RecordId | ornitho/model/abstract/base_model.py:66-68 | a dictionary record without `id` raises `KeyError` |
| BaseModel.RecordIdOfWritten | ornitho/model/abstract/base_model.py:66-68 | a record whose `id` is the text of `n` yields `n` |
| BaseModel.ObservationIdOfWritten | ornitho/model/observation.py:38-43 | an observation's id is `int` of its first observer's `id_sighting` |
| BaseModel.InstanceUrl | ornitho/model/abstract/base_model.py:84-91 | the instance URL is the endpoint, a slash and the quoted id; a class without an endpoint raises `AttributeError`; a form uses its endpoint alone |
| BaseModel.InstanceUrlOfInt | ornitho/model/abstract/base_model.py:84-91 | an integer id appears verbatim in the URL and parses back |
| BaseModel.RefreshCall | ornitho/model/abstract/base_model.py:73-79 | `refresh` sends `GET instance_url()`; a form sends a raw `POST` with body `{"id_form": id}`; fields and field options raise `NotImplementedError` |
| BaseModel.Model.Refresh | ornitho/model/abstract/base_model.py:73-82 | on success `_previous` is the old record and `_raw_data` the fetched one; on failure the model is unchanged |
| BaseModel.Model.Retrieve | ornitho/model/abstract/base_model.py:28-38 | `retrieve` is a new model refreshed once |
| BaseModel.FormRefreshed | ornitho/model/form.py:49-56 | a form reply adopts `data.forms[0]`; a reply without `data` raises `APIException("Unrecognized response")` |
| BaseModel.FirstRecordRefreshed | ornitho/model/abstract/base_model.py:79 | other classes adopt the first record; an empty page raises `IndexError` |
| BaseModel.BindRequest | ornitho/model/abstract/base_model.py:41-46 | keywords bind to `request` exactly when each is one of `method`, `url`, `params`, `body`; otherwise `TypeError` |
| BaseModel.Request | ornitho/model/abstract/base_model.py:40-64 | one call, one page; the pagination key is dropped; a site refuses with `NotImplementedError` |
| BaseModel.PageOf | ornitho/model/abstract/base_model.py:59-64 | the response of a successful reply without its key; a failure passes through |
| BaseModel.Flag | ornitho/model/observer.py:139-147 | `raw.get(key) == "0"` is the only false case; an absent key is true |
| BaseModel.StrictFlag | ornitho/model/protocol.py:130-136 | `raw[key] == "0"` is false, anything else true, and an absent key raises |
| BaseModel.Optional | ornitho/model/place.py:130-136 | the value when the key is present, `None` otherwise |
| BaseModel.IntField | ornitho/model/family.py:19-21 | `int(raw[key])`: a missing key raises `KeyError`; a text succeeds iff it parses |
| BaseModel.FlagWritten | ornitho/model/field.py:54-59 | a flag written as "1" or "0" reads back as written |
| BaseModel.IntFieldWritten | ornitho/model/field_option.py:47-53 | a number written with `str` reads back with `int` |
| ListableModel.FromRecord | ornitho/model/abstract/base_model.py:66-71 | building from a record succeeds iff its id reads, and keeps the record |
| ListableModel.Instantiate | ornitho/model/abstract/listable_model.py:42-45 | the loop builds one fresh model per record, in order, or stops with the first failure |
| ListableModel.Listing | ornitho/model/abstract/listable_model.py:35-46 | a listing is the records' ids and records, in order, with the reply's key; it succeeds iff every id reads |
| ListableModel.List | ornitho/model/abstract/listable_model.py:15-46 | one `GET ENDPOINT` with the filters as query parameters; the models are those of `Listing` |
| ListableModel.ListAll | ornitho/model/abstract/listable_model.py:48-57 | `list(True, None, **filters)`; a filter named `request_all` or `pagination_key` raises `TypeError` before anything is sent |
| ListableModel.ListingOfWritten | ornitho/model/abstract/listable_model.py:43-46 | records written with integer ids list to models with those ids, in order |
| SearchableModel.SearchCall | ornitho/model/abstract/searchable_model.py:35-44 | the search goes to `observations/search` with the filters in the body, not the query |
| SearchableModel.Searching | ornitho/model/abstract/searchable_model.py:45-49 | one decoded model per record, in order, with the reply's key; it succeeds iff every record decodes |
| SearchableModel.Search | ornitho/model/abstract/searchable_model.py:15-49 | one `POST ENDPOINT/search`; the models are those of `Searching` |
| SearchableModel.SearchAll | ornitho/model/abstract/searchable_model.py:51-68 | every page from the start; a repeated keyword raises `TypeError` before anything is sent |
| CreateableModel.CreatedIdOfResponse | ornitho/model/abstract/createable_model.py:24 | the created id is `response[0]["id"][0]`; an empty response raises `IndexError` |
| CreateableModel.CreateInOrnitho | ornitho/model/abstract/createable_model.py:13-24 | one `POST ENDPOINT` with body `{"data": data}`; the result is the created id |
| UpdateableModel.UpdateUrl | ornitho/model/abstract/updateable_model.py:18 | the URL is the endpoint, a slash and `str(id)`, unquoted |
| UpdateableModel.UpdateBody | ornitho/model/abstract/updateable_model.py:19-22 | an observation is wrapped as `{"data": {"sightings": [trimmed]}}`; other classes send the trimmed record |
| UpdateableModel.ObservationEnvelope | ornitho/model/abstract/updateable_model.py:19-20 | the envelope has exactly one key and one sighting, the trimmed record |
| UpdateableModel.RetriesRefused | ornitho/model/abstract/updateable_model.py:23 | `retries` is not among the parameters of `BaseModel.request`, so the keywords `update` passes do not bind |
| UpdateableModel.UpdateAsWritten | ornitho/model/abstract/updateable_model.py:13-24 | as written, `update` raises `AttributeError` without an `ENDPOINT` and `TypeError` otherwise, and sends nothing |
| UpdateableModel.Update | ornitho/model/abstract/updateable_model.py:13-24 | as intended, one `put` of the body to the update URL, whose response is returned |
| DeletableModel.DeleteUrl | ornitho/model/abstract/deletable_model.py:19 | the delete endpoint, or else the endpoint, a slash and `str(id)` |
| DeletableModel.FormDeletion | ornitho/model/form.py:15-19 | a form is deleted by `POST observations/delete_list/<id>`; other classes use `DELETE` on their endpoint |
| DeletableModel.Delete | ornitho/model/abstract/deletable_model.py:16-20 | exactly one request; its failure propagates and its response is discarded |
| Details.Str | ornitho/model/detail.py:15-16 | `str(detail)` exists iff sex and age have a text, and starts with the count and a dash |
| Details.EqualIsEquivalence | ornitho/model/detail.py:18-23 | detail equality is reflexive, symmetric and transitive |
| Details.StrReadsBack | ornitho/model/detail.py:15-16 | the text of a detail with a non-negative count and dash-free sex and age splits back into count, sex and age |
| Details.StrInjective | ornitho/model/detail.py:15-23 | two such details with the same text are equal |
| Relations.TypeValue | ornitho/model/relation.py:4-7 | each enum value is a dash-free word |
| Relations.TypeValueInjective | ornitho/model/relation.py:4-7 | distinct relation types have distinct values |
| Relations.Str | ornitho/model/relation.py:21-22 | `str(relation)` is the id's text, a dash, and the type's value |
| Relations.StrInjective | ornitho/model/relation.py:21-25 | the text determines the relation, so equal texts mean equal relations |
| Playbacks.BoolText | ornitho/model/playback.py:14-15 | `str` of a boolean is `True` or `False`, without a dash |
| Playbacks.Repr | ornitho/model/playback.py:27-28 | `repr` wraps the text in the qualified class name and angle brackets |
| Playbacks.EqualHashAlike | ornitho/model/playback.py:17-25 | equal playbacks hash the same triple |
| Playbacks.StrReadsBack | ornitho/model/playback.py:14-15 | the text of a playback with non-negative ids splits back into form id, species id and outcome |
| Playbacks.StrInjective | ornitho/model/playback.py:14-22 | two such playbacks with the same text are equal |
| Playbacks.SpeciesOf | ornitho/model/playback.py:10-12 | `species` is a new, unrefreshed species with the playback's species id |
| Medias.Photo | ornitho/model/media.py:70-77 | `has_large`, `media` and `photo` are all read; any other media keeps its address unchanged |
| Medias.PhotoSmall | ornitho/model/media.py:79-81 | the recorded address for a photo, `None` for any other media, `KeyError` without `media` |
| Medias.LargePhoto | ornitho/model/media.py:72-73 | a photo with a large version has `large` in place of `xsmall` in its address |
| Medias.SmallPhoto | ornitho/model/media.py:74-75 | a photo without a large version has its `xsmall/` directory dropped |
| Medias.OtherMedia | ornitho/model/media.py:76-81 | a non-photo keeps its address and has no small photo |
| Medias.PhotoWithoutSize | ornitho/model/media.py:70-77 | an address without `xsmall` is the same for both sizes |
| FieldOptions.OptionUrl | ornitho/model/field_option.py:23-26 | an id is accepted iff it is a string with an underscore before its first line break; the URL is `fields/` and the part before the first underscore; any other id raises `APIException` |
| FieldOptions.OptionUrlOfField | ornitho/model/field_option.py:23-24 | the id `<field>_<n>` asks for `fields/<field>` |
| FieldOptions.FindOption | ornitho/model/field_option.py:30-34 | an option found has the id asked for |
| FieldOptions.FindOptionSkips | ornitho/model/field_option.py:30-33 | records that decode to other ids are passed over |
| FieldOptions.FindOptionFound | ornitho/model/field_option.py:30-33 | the option returned is the first match: every record before it decodes to another id |
| FieldOptions.FindOptionMissing | ornitho/model/field_option.py:34 | when no record has the id, `APIException("Can't find field option with ID …")` is raised |
| FieldOptions.Options | ornitho/model/field_option.py:27-34 | the option a list reply yields is the one the scan finds |
| FieldOptions.Get | ornitho/model/field_option.py:12-34 | the id is checked before any request; then one `GET fields/<field>` is sent, and the loop returns a fresh option for the first match, the first decoding failure, or not-found |
| Fields.Field.constructor | ornitho/model/field.py:12-18 | a new field has no record and no options |
| Fields.Field.Mandatory | ornitho/model/field.py:53-55 | false exactly when the record says "0"; an absent key is true |
| Fields.Field.EmptyChoice | ornitho/model/field.py:57-59 | false exactly when the record says "0"; an absent key is true |
| Fields.Field.Options | ornitho/model/field.py:61-70 | the first call sends `GET fields/<id>` with `short_version=False` and caches one option per record; later calls return the cache and send nothing; a failure caches nothing |
| Fields.Field.OptionsAsWritten | ornitho/model/field.py:61-70 | as written, the options are built with `FieldOption.create_from` |
| Fields.CreateFromMergesOptionIds | ornitho/model/field.py:69 | built with `create_from`, the options "1_12" and "11_2" both get the integer id 112, which `FieldOption.get` refuses |
| Fields.CreateFromSeparated | ornitho/model/field.py:69 | `create_from` reads an option id made of two digit runs as one number |
| Fields.ListedOptionFound | ornitho/model/field_option.py:30-33 | built with `create_from_ornitho_json`, every listed option with a string id is found by `FieldOption.get` under that id |
| Fields.FirstWithId | ornitho/model/field.py:28-31 | the position found is a match with no match before it; none is found only when no field matches |
| Fields.Scan | ornitho/model/field.py:28-31 | the loop returns the first field whose id equals the one asked for, or none |
| Fields.Get | ornitho/model/field.py:20-32 | `list_all(short_version=False)`, then the first field with the id, or `APIException("Can't find field with ID …")` |
| Fields.FirstWithIdIs | ornitho/model/field.py:28-31 | the first match is unique: a position that matches, with none before it, is the one `FirstWithId` gives |
| LocalAdminUnits.LocalAdminUnit.constructor | ornitho/model/local_admin_unit.py:11-13 | a new unit has no record and no territorial unit |
| LocalAdminUnits.LocalAdminUnit.IdCanton | ornitho/model/local_admin_unit.py:15-18 | `int(raw["id_canton"])`: `KeyError` when missing; a text succeeds iff it parses, and yields its value |
| LocalAdminUnits.LocalAdminUnit.TerritorialUnit | ornitho/model/local_admin_unit.py:40-44 | the first use makes a fresh territorial unit with id `id_canton`, without a request, and keeps it; later uses return the same object |
| LocalAdminUnits.LocalAdminUnit.Canton | ornitho/model/local_admin_unit.py:46-48 | `canton` behaves exactly as `territorial_unit` |
| LocalAdminUnits.CantonTwice | ornitho/model/local_admin_unit.py:40-48 | asking for the canton twice gives the same object |
| Families.Family.constructor | ornitho/model/family.py:11-17 | a new family has no record and no taxonomic group |
| Families.Family.IdTaxoGroup | ornitho/model/family.py:19-21 | `int(raw["id_taxo_group"])`: `KeyError` when missing; a text succeeds iff it parses |
| Families.Family.Generic | ornitho/model/family.py:31-33 | false exactly when the record says "0"; an absent key is true |
| Families.Family.FetchTaxoGroup | ornitho/model/family.py:35-39 | the first use fetches the taxonomic group `id_taxo_group` and keeps it; later uses return it unchanged; a failure keeps nothing |
| Rights.RightText | ornitho/model/right.py:22-23 | `str(right)` is id, name and comment joined by dashes |
| Rights.RightTextSplits | ornitho/model/right.py:22-23 | the text of a right with dash-free name and comment splits back into its parts, and the id reads back |
| Rights.RightOf | ornitho/model/right.py:35 | a right is read as `int(id)`, `name` and `comment`, in that order; it succeeds iff all three are present and the id parses |
| Rights.RightsOf | ornitho/model/right.py:33-40 | no `data` raises `KeyError`; no `rights` under `data` gives no rights; otherwise one right per entry, in order |
| Rights.RightOfRecord | ornitho/model/right.py:35 | a right written as the endpoint writes it reads back as itself |
| Rights.RightsRoundTrip | ornitho/model/right.py:33-40 | the rights of a response listing rights are those rights, in order |
| Rights.RetrieveForObserver | ornitho/model/right.py:25-40 | one raw `GET observers/rights/<id>`; the result is `RightsOf` the reply, or its failure |
| Observers.Observer.constructor | ornitho/model/observer.py:12-18 | a new observer has no record and no rights |
| Observers.Observer.SettingOf | ornitho/model/observer.py:139-147 | each "0"/"1" setting (anonymous, hide_email, archive_account, collectif, has_search_access, …, mobile_use_trace) is false exactly when the record says "0"; an absent key is true |
| Observers.Observer.UseLatinSearch | ornitho/model/observer.py:184-187 | false exactly when the record says "N"; an absent key is true |
| Observers.Observer.FetchRights | ornitho/model/observer.py:244-249 | an observer with a true id and no rights fetches them, and keeps them only on success; an observer without an id, or with rights already, asks nothing |
| Observers.Current | ornitho/model/observer.py:20-24 | one `GET observers/current`; the observer is built from the first record of the page |
| Observers.CurrentRecord | ornitho/model/observer.py:23-24 | an empty page raises `IndexError`; otherwise the first record is decoded |
| Protocols.OptionalInt | ornitho/model/protocol.py:34-38 | `int(raw[key]) if raw[key] else None`: a missing key raises `KeyError`; a false value gives `None`; a non-empty text succeeds iff it parses. The same shape serves every optional setting (lines 44-50, 60-66, 72-78, 88-94, 100-106, 108-112, 122-128, 142-148, 150-156) |
| Protocols.OptionalIntWritten | ornitho/model/protocol.py:142-156 | a setting written with `str` reads back as that number, "0" included; one written as "" reads back as `None` |
| Protocols.SiteIds | ornitho/model/protocol.py:175-176 | the site ids are the keys of the first record, in order; an empty page raises `IndexError`; a first record that is not a dictionary raises `AttributeError` |
| Protocols.NewSites | ornitho/model/protocol.py:176 | one fresh, unrefreshed site per id, in order |
| Protocols.ObservationFiltersRead | ornitho/model/protocol.py:200-208 | the search names the protocol in `only_protocol`, keeps a caller's `period_choice` or asks for `all`, and passes every other keyword on unchanged |
| Protocols.Protocol.constructor | ornitho/model/protocol.py:13-20 | a new protocol has no record, no entity and no sites |
| Protocols.Protocol.Name | ornitho/model/protocol.py:22-24 | `raw["name"]`, present iff the key is |
| Protocols.Protocol.AutoHidden | ornitho/model/protocol.py:130-132 | false exactly when the record says "0"; the key must be present |
| Protocols.Protocol.OnlyAdminCreate | ornitho/model/protocol.py:134-136 | false exactly when the record says "0"; the key must be present |
| Protocols.Protocol.FetchEntity | ornitho/model/protocol.py:158-163 | the first use fetches entity `id_entity` and keeps it; later uses return it; a failure keeps nothing |
| Protocols.Protocol.FetchSites | ornitho/model/protocol.py:165-177 | while no site is cached (none, or an empty list), one `GET protocol/sites` with `id_protocol` is sent, and one site is built per key of the first record; a non-empty cache is returned without a request |
| Protocols.Protocol.GetObservations | ornitho/model/protocol.py:179-208 | an observation search with the filters of `ObservationFilters`; `name` is read first; a keyword `only_protocol` raises `TypeError` before anything is sent |
| Protocols.Protocol.GetAllObservations | ornitho/model/protocol.py:210-226 | `get_observations` with every page from the start, without the key; a repeated keyword raises `TypeError` |
| Sites.LayerOf | ornitho/model/site.py:8-12 | exactly the four layer values name a layer, and each names the layer with that value |
| Sites.LayerRoundTrip | ornitho/model/site.py:8-12 | every layer is found again from its value, so no two layers share one |
| Sites.PresentKeeps | ornitho/model/site.py:73-82 | a key that no assignment names keeps its value from the head of the query |
| Sites.PresentRead | ornitho/model/site.py:73-82 | a key assigned once reads back as its optional value |
| Sites.PdfParamsRead | ornitho/model/site.py:71-82 | the query always holds the id, holds the layer exactly when one is given, holds `1` for exactly the switches that are on, and nothing else |
| Sites.PdfParamsSpelled | ornitho/model/site.py:72-82 | the query is the id followed by the given assignments, in the source's order |
| Sites.Assign | ornitho/model/site.py:73-82 | an optional assignment appends the entry only when a value is given |
| Sites.Pdf | ornitho/model/site.py:48-86 | one `GET protocol/site_pdf` with the query of `PdfParams`, sent straight through the requester; the response is returned as it comes |
| Places.Place.constructor | ornitho/model/place.py:14-20 | a new place has its modification type, no record, no commune and no geometry |
| Places.Place.IdCommune | ornitho/model/place.py:22-26 | `int(raw["id_commune"])`: `KeyError` when missing, otherwise `int` of the value |
| Places.Place.Visible | ornitho/model/place.py:61-64 | false exactly when the record says "0"; an absent key is true |
| Places.Place.IsPrivate | ornitho/model/place.py:66-69 | false exactly when the record says "0"; an absent key is true |
| Places.Place.County | ornitho/model/place.py:130-132 | the record's value, `None` exactly when it has none |
| Places.Place.Country | ornitho/model/place.py:134-136 | the record's value, `None` exactly when it has none |
| Places.Place.FetchLocalAdminUnit | ornitho/model/place.py:81-85 | the first use fetches the unit `id_commune` and keeps it; later uses return it; a failure keeps nothing |
| Places.Place.Commune | ornitho/model/place.py:87-89 | `commune` behaves exactly as `local_admin_unit` |
| Places.Place.Municipality | ornitho/model/place.py:122-128 | the record's `municipality` when present, without touching the unit; otherwise the name of the (cached or fetched) local admin unit |
| Places.Place.CreateFromSite | ornitho/model/place.py:163-170 | a place with the site's `int(id)` and its centroid, order and geometry when present, `None` otherwise; it fails iff the id does not read |
| Places.ClosestFiltersRead | ornitho/model/place.py:155-161 | the four fixed filters carry what was given; every other filter is the caller's |
| Places.FindClosestPlace | ornitho/model/place.py:151-161 | `list_all` with those filters, then the first place; an empty list raises `IndexError`; a repeated keyword raises `TypeError` before anything is sent |
| Places.IsoRoundTrip | ornitho/model/place.py:209-213 | the ISO date sent reads back field by field |
| Places.IsoFormatInjective | ornitho/model/place.py:209-213 | two dates are written alike only when they agree to the second |
| Places.DiffDate | ornitho/model/place.py:204-213 | the date is sent as ISO text to the second; a `date`, string or bytes raises `TypeError`; any other non-datetime raises `AttributeError` |
| Places.DiffDateDropsMicroseconds | ornitho/model/place.py:204 | two datetimes are sent alike iff they agree to the second |
| Places.PlaceDiffParams | ornitho/model/place.py:192-213 | the query succeeds iff the date is a datetime and the protocol filter reads; the failures are those of the protocol name, then of the date |
| Places.PlaceDiffParamsFilters | ornitho/model/place.py:192-213 | `modification_type` and `only_protocol` are sent exactly when given, and the date always, to the second |
| Places.Classify | ornitho/model/place.py:218-221 | "updated" is `ONLY_MODIFIED`; anything else is `ONLY_DELETED`, never `ALL` |
| Places.Change | ornitho/model/place.py:218-226 | a change reads the modification type first, then `int(id_place)` |
| Places.DeletedNeverFetched | ornitho/model/place.py:222-227 | a place is fetched iff places are retrieved and it was modified; otherwise it is built, marked with its change |
| Places.PlaceFor | ornitho/model/place.py:222-227 | one change becomes a fetched place or a fresh, marked one |
| Places.Changes | ornitho/model/place.py:216-228 | the loop makes one place per changed record, in order, or stops at the first failure |
| Places.Diff | ornitho/model/place.py:172-228 | one `GET places/diff` with `PlaceDiffParams`, then the places of `Changes`; a bad date or protocol sends nothing |
| Observations.ModificationValueInjective | ornitho/model/observation.py:14-17 | the three modification types send three different values |
| Observations.FirstObserver | ornitho/model/observation.py:45-47 | `raw["observers"][0]`; a record without `observers` raises `KeyError` |
| Observations.FirstObserverOf | ornitho/model/observation.py:45-47 | the first entry of `observers` is the one read |
| Observations.IdObserver | ornitho/model/observation.py:45-47 | `int(observers[0]["@id"])`; `KeyError` when that entry has no `@id` |
| Observations.IdObserverOfWritten | ornitho/model/observation.py:45-47 | an observer id written as text reads back |
| Observations.IdForm | ornitho/model/observation.py:73-79 | `None` exactly when the first observer has no `id_form`; otherwise its `int` |
| Observations.Hidden | ornitho/model/observation.py:139-146 | true exactly when `hidden` is present and not `"0"`; a missing first observer is an error |
| Observations.Reference | ornitho/model/observation.py:148-157 | for `atlas_code`, `id_resting_habitat` and `id_observation_detail` (lines 205-221): `None` when absent, the `@id` of a dictionary (`KeyError` without one), any other value unchanged |
| Observations.ReferenceWritten | ornitho/model/observation.py:205-221 | `{"@id": x}` and `x` read the same, and a string with a comma is not split |
| Observations.MediaUrl | ornitho/model/observation.py:118 | `path + "/" + filename` of one media |
| Observations.MediaUrls | ornitho/model/observation.py:114-121 | `None` without `medias`; otherwise one URL per media, in order, failing iff some media's URL fails |
| Observations.DetailOf | ornitho/model/observation.py:163-174 | a detail's count is `int(detail["count"])` |
| Observations.DetailsOf | ornitho/model/observation.py:159-175 | `None` without `details`; an empty list raises `IndexError`; otherwise one detail per entry in order, with its count |
| Observations.NestedDetailReads | ornitho/model/observation.py:163-169 | a detail written with `{"@id": ...}` sex and age reads back |
| Observations.DetailsOfNested | ornitho/model/observation.py:159-175 | a non-empty list of nested details reads back as the same details, in order |
| Observations.DetailsOfList | ornitho/model/observation.py:159-169 | when the first entry's sex has `@id`, every entry is read in the nested shape |
| Observations.IdPlace | ornitho/model/observation.py:201-203 | `int(raw["place"]["@id"])`; `KeyError` without `place` |
| Observations.IdPlaceOfWritten | ornitho/model/observation.py:201-203 | a place id written as text reads back |
| Observations.IdSpecies | ornitho/model/observation.py:85-87 | `int(raw["species"]["@id"])`; `KeyError` without `species` |
| Observations.IdSpeciesOfWritten | ornitho/model/observation.py:85-87 | a species id written as text reads back |
| Observations.MediaId | ornitho/model/observation.py:109 | a media's `@id`, present iff the dictionary has it |
| Observations.MediaIds | ornitho/model/observation.py:105-111 | `None` without `medias`; otherwise the ids in order, failing iff some media has none |
| Observations.Cached | ornitho/model/observation.py:223-242 | a cached object is returned as it is; otherwise the object of that kind fetched by the id, or the id's error |
| Observations.Observation.constructor | ornitho/model/observation.py:25-36 | an observation with the given id, an empty record and nothing cached |
| Observations.Observation.FetchSpecies | ornitho/model/observation.py:223-228 | the first use fetches `Species(id_species)` and keeps it; later uses return the kept one; a failure keeps nothing |
| Observations.Observation.FetchObserver | ornitho/model/observation.py:230-235 | as `species`, with `Observer(id_observer)` |
| Observations.Observation.FetchPlace | ornitho/model/observation.py:237-242 | as `species`, with `Place(id_place)` |
| Observations.Observation.FetchRestingHabitat | ornitho/model/observation.py:244-249 | a field option is fetched and kept only when nothing is cached and the id is truthy; otherwise `None` |
| Observations.Observation.FetchObservationDetail | ornitho/model/observation.py:251-256 | as `resting_habitat`, with `id_observation_detail` |
| Observations.Observation.FetchMedias | ornitho/model/observation.py:105-112 | the first use fetches one media per id, in order, and keeps the list; without `medias` nothing is kept |
| Observations.ByObserver | ornitho/model/observation.py:258-281 | one `list` call without `request_all`, with the pagination key and `id_observer` before the other filters; a repeated keyword raises `TypeError` before anything is sent |
| Observations.ByObserverAll | ornitho/model/observation.py:283-296 | `list_all` with `id_observer` before the other filters; a repeated keyword raises `TypeError` |
| Observations.OnlyProtocol | ornitho/model/observation.py:330-336 | a name is sent as it is; a protocol sends its `name`, which it must have |
| Observations.DiffParams | ornitho/model/observation.py:324-346 | the query succeeds iff the date is a datetime and a given protocol has a name |
| Observations.DiffParamsFilters | ornitho/model/observation.py:325-346 | each filter is sent exactly when given (`id_taxo_group` when non-zero, `only_form` as 1 when true), and the date always |
| Observations.SightingId | ornitho/model/observation.py:352-354 | `int(obs["id_sighting"])`; `KeyError` without it |
| Observations.ChangedIds | ornitho/model/observation.py:348-354 | one sighting id per changed record, in order, failing iff some record's id fails |
| Observations.Changes | ornitho/model/observation.py:349-355 | the loop makes, per record in order, `get(id)` or a fresh observation holding only its id, and stops at the first bad id with its error |
| Observations.Diff | ornitho/model/observation.py:298-355 | one `GET observations/diff` with `DiffParams`, then the observations of `Changes`; a bad date or protocol sends nothing |
| Forms.FormatTime | ornitho/model/form.py:83-85 | `%H:%M:%S`: eight characters, two digits per part, colons between |
| Forms.IntPart | ornitho/model/form.py:76-80 | `int(parts[i])`: `IndexError` past the end, otherwise the parse of that part |
| Forms.ParseTime | ornitho/model/form.py:74-81 | split at `:`; succeeds iff there are at least three parts, the first three read as ints and they are a valid time of day; the result is those three |
| Forms.TimeRoundTrip | ornitho/model/form.py:74-85 | what the setter writes, the getter reads back |
| Forms.TimeField | ornitho/model/form.py:87-94 | `time_start` / `time_stop`: `KeyError` when absent, otherwise a valid time |
| Forms.TimeFieldWritten | ornitho/model/form.py:96-98 | a time set reads back from the getter |
| Forms.ProtocolField | ornitho/model/form.py:136-142 | `None` without a protocol header; otherwise the header's value, `KeyError` when it lacks the key (also `site_code`, `local_site_code`, `list_type`, lines 151-218) |
| Forms.SetInProtocol | ornitho/model/form.py:146 | the protocol header gets the key, the rest of the record is as it was |
| Forms.WithProtocolField | ornitho/model/form.py:144-149 | with a header, the key is set in it; without one, a header holding only that key is created (also lines 159-164, 190-210, 252-257) |
| Forms.ProtocolFieldWritten | ornitho/model/form.py:144-149 | after a protocol setter the key reads back; other header keys are kept when the header existed and missing when it was created; no other record key changes |
| Forms.ProtocolFieldUpdated | ornitho/model/form.py:146-147 | with a header: the key reads back and every other key is unchanged |
| Forms.ProtocolFieldAdded | ornitho/model/form.py:148-149 | without a header: the key reads back and any other protocol key raises `KeyError` |
| Forms.Advanced | ornitho/model/form.py:174-180 | `None` without a header; otherwise whether `advanced` differs from `"0"` |
| Forms.ProtocolNumber | ornitho/model/form.py:182-203 | `visit_number` / `sequence_number`: `None` without a header, otherwise `int` of the header's value |
| Forms.ProtocolNumberWritten | ornitho/model/form.py:182-210 | a number set with `str(value)` reads back |
| Forms.HeadBeforeComma | ornitho/model/form.py:245-249 | `split(",")[0]`, defined exactly for strings |
| Forms.CompoundId | ornitho/model/form.py:238-250 | the `id_*` accessors (lines 238-645): `None` without the header or the key; the `@id` of a dictionary or the string itself, cut at the first comma; the result never holds a comma |
| Forms.CompoundIdWritten | ornitho/model/form.py:238-257 | `id_waterbird_conditions = x` reads back as `x` up to its first comma, and as `x` when it has none |
| Forms.Wkt | ornitho/model/form.py:220-236 | the track only when it holds `LINESTRING` and a comma; `None` otherwise |
| Forms.SpeciesKey | ornitho/model/form.py:652-653 | a key reads iff what is left after removing `Id_species_` is an integer |
| Forms.SpeciesKeyWritten | ornitho/model/form.py:652-653 | `Id_species_<n>` reads back as `n` |
| Forms.PlaybackMap | ornitho/model/form.py:650-654 | the map is built iff every key reads |
| Forms.PlaybackMapKeys | ornitho/model/form.py:650-654 | the map holds exactly the species of the entries |
| Forms.PlaybackMapLastWins | ornitho/model/form.py:650-654 | a species maps to whether its last entry is `"1"` |
| Forms.PlaybackMapStops | ornitho/model/form.py:650-653 | the first key that does not read is the error of the whole map |
| Forms.SpeciesFlags | ornitho/model/form.py:650-654 | the loop builds exactly `PlaybackMap` |
| Forms.PlaybacksOf | ornitho/model/form.py:647-655 | `None` without the header or `playback`; otherwise the map of its entries |
| Forms.SpeciesNumber | ornitho/model/form.py:682-683 | an int as it is; a `Species` by `int(id_)`, or 0 without id |
| Forms.PlaybackPlayed | ornitho/model/form.py:681-688 | the species' flag when the map has it, `None` otherwise or without playbacks |
| Forms.PlaybackPlayedOf | ornitho/model/form.py:681-688 | species `n` answers `None` when no entry is keyed `Id_species_<n>`, and otherwise the flag (`"1"` or not) of the last entry keyed with it |
| Forms.HeaderKeyAsWritten | ornitho/model/form.py:726 | `key.lstrip("id_")`: a suffix of the key that starts with none of `i`, `d`, `_` |
| Forms.HeaderKeyAsWrittenKeeps | ornitho/model/form.py:726 | stripping `id_` + field keeps the field exactly when it starts with none of `i`, `d`, `_` |
| Forms.HeaderKeyAsWrittenDrone | ornitho/model/form.py:726 | `id_drone_used` is not stored under `drone_used`, which its accessor reads |
| Forms.HeaderKey | ornitho/model/form.py:725-726 | the key without its `id_` prefix |
| Forms.HeaderEntry | ornitho/model/form.py:725-728 | `id_` headers are stored as `{"@id": str(value)}` under the key without prefix; others as they are |
| Forms.HeaderEntryAsWritten | ornitho/model/form.py:725-728 | the same with the key `lstrip` makes |
| Forms.WithHeaders | ornitho/model/form.py:724-728 | no headers leave the record as it is |
| Forms.WithHeadersFrame | ornitho/model/form.py:724-728 | the headers change only their own keys inside the protocol header, and nothing outside it |
| Forms.HeaderLostAsWritten | ornitho/model/form.py:724-726 | as written, a header `id_<field>` with `field` starting with `i`, `d` or `_` is not found by the accessor for `field` |
| Forms.HeaderKept | ornitho/model/form.py:724-726 | with the prefix removed as intended, the accessor finds the header's value |
| Forms.DraftReads | ornitho/model/form.py:705-733 | for header keys stripped as written or as intended, the draft's getters read back the times, `full_form`, the comment, the protocol name (unless a header lands on `protocol_name`), the visit and sequence numbers; without protocol or numbers there is no protocol header |
| Forms.Chunks | ornitho/model/form.py:765-768 | `ceil(n / 32)` chunks |
| Forms.ChunksPartition | ornitho/model/form.py:765-777 | the chunks hold 1 to 32 observations each and, one after the other, are the observations in order |
| Forms.Placed | ornitho/model/form.py:672-677 | the setter's loop handles at most every record, and every one when nothing stops it |
| Forms.PlacedStops | ornitho/model/form.py:672-677 | an error stops the loop for good |
| Forms.PlacedStopsAt | ornitho/model/form.py:672-677 | a failing step stops the loop with the place and records reached so far |
| Forms.PlacedGiven | ornitho/model/form.py:672-675 | a form with a place gives it to every observation, in order, and keeps it |
| Forms.PlacedAdopts | ornitho/model/form.py:672-677 | a form without place adopts the first observation's place and gives it to every later one; a first observation without a readable place stops it before any change |
| Forms.PlacedNext | ornitho/model/form.py:672-677 | one more observation is one more step |
| Forms.Raws | ornitho/model/form.py:678 | the observations' records, in order |
| Forms.TrimmedRaw | ornitho/model/form.py:788-796 | the record as it is without observations; otherwise the same record with `sightings` replaced by the trimmed records |
| Forms.Form.constructor | ornitho/model/form.py:21-28 | no record, no observations, no place |
| Forms.Form.Refresh | ornitho/model/form.py:37-57 | `POST observations/search` with `{"id_form": id}`; on `data.forms` the first form becomes the record, the old one the previous and the observations are dropped; otherwise nothing changes |
| Forms.Form.SetTime | ornitho/model/form.py:83-98 | the time is stored as text and the getter reads it back |
| Forms.Form.SetFullForm | ornitho/model/form.py:100-106 | `"1"` or `"0"` is stored and `full_form` reads back the flag set |
| Forms.Form.SetComment | ornitho/model/form.py:128-134 | the comment is stored and reads back |
| Forms.Form.SetProtocolField | ornitho/model/form.py:144-164 | the value reads back and the other protocol keys are kept |
| Forms.Form.SetProtocolNumber | ornitho/model/form.py:190-210 | the number reads back |
| Forms.Form.SetIdWaterbirdConditions | ornitho/model/form.py:252-257 | the value reads back up to its first comma |
| Forms.Form.Playbacks | ornitho/model/form.py:647-655 | exactly `PlaybacksOf` of the record |
| Forms.Form.PlaceAll | ornitho/model/form.py:672-677 | the loop leaves the place and the records `Placed` describes; records past a failure are untouched |
| Forms.Form.PlaceAt | ornitho/model/form.py:673-677 | one step on one observation; every other observation is untouched |
| Forms.Form.PlaceOne | ornitho/model/form.py:673-677 | one step as `PlaceStep` describes it |
| Forms.Form.SetObservations | ornitho/model/form.py:671-679 | places as `Placed` sets them; then `sightings` holds the records in order and the observations are attached; a failure leaves record and observations as they were |
| Forms.Form.AssignHead | ornitho/model/form.py:705-711 | the times, `full_form` and the comment, as `DraftHead` |
| Forms.Form.AssignProtocol | ornitho/model/form.py:719-728 | the protocol name and then each header in order, as `DraftProtocol`, with the key stripped as written (`lstrip`) or as intended |
| Forms.Form.AssignNumber | ornitho/model/form.py:730-733 | the number if given, as `DraftNumber` |
| Forms.Form.AssignTail | ornitho/model/form.py:719-733 | protocol, visit number, sequence number, as `DraftTail` |
| Forms.Form.NewDraft | ornitho/model/form.py:705-733 | a new form holding `Draft` and the given place |
| Forms.Form.Create | ornitho/model/form.py:690-786 | with `create_in_ornitho=False`, as written: the draft with header keys stripped by `lstrip("id_")`, then the observations attached with the places `Placed` gives; a failure leaves the draft without observations |
| Forms.Form.CreateIntended | ornitho/model/form.py:690-733 | the same with each header key losing only its `id_` prefix, so that every header reads back under its field |
| PyStr.Find | ornitho/model/field_option.py:24 | the first index of the character, or -1 exactly when it is absent |
| PyStr.SplitHead | ornitho/model/field_option.py:24 | `s.split(c)[0]`: the longest prefix without `c`, ending where the first `c` stands |
| PyStr.Split | ornitho/model/form.py:76 | at least one part, none holding the separator, the first being `SplitHead` |
| PyStr.JoinSplit | ornitho/api_requester.py:289 | joining the parts of a split gives back the string |
| PyStr.SplitJoin | ornitho/model/form.py:76-80 | splitting parts joined by a separator they do not hold gives back the parts |
| PyStr.DropFirstLine | ornitho/api_requester.py:286-290 | the text after its first line, or nothing without a line break |
| PyStr.DropFirstLineIsJoinOfSplit | ornitho/api_requester.py:289 | it is `"\n".join(text.split("\n")[1:])` |
| PyStr.ContainsIff | ornitho/model/form.py:228-232 | `sub in s` iff `sub` occurs in `s` at some index |
| PyStr.ReplaceKeepsPrefix | ornitho/model/media.py:73-75 | `replace` leaves the text before the first occurrence as it is |
| PyStr.ReplaceAbsent | ornitho/model/media.py:73-75 | `replace` of an absent text changes nothing |
| PyStr.ReplaceFirst | ornitho/model/media.py:73-75 | the first occurrence is replaced and the rest is replaced in turn |
| PyStr.LStrip | ornitho/model/form.py:726 | `lstrip(chars)`: drops the longest prefix of characters in the set, and only that |
| PyStr.LowerAscii | ornitho/api_requester.py:102 | `lower()` on ASCII: same length, capitals lowered, everything else kept |
| PyStr.NatToStr | ornitho/model/form.py:194 | `str(n)` of a natural: digits whose value is `n` |
| PyStr.IntToStr | ornitho/model/form.py:194 | `str(n)`: digits, after a minus sign when negative |
| PyStr.DigitsParse | ornitho/model/form.py:78-80 | `int` of a run of digits is its value |
| PyStr.IntRoundTrip | ornitho/model/form.py:182-195 | `int(str(n)) == n` |
| PyStr.IntToStrInjective | ornitho/model/abstract/base_model.py:90 | different integers are written differently |
| PyStr.SeparatedParse | ornitho/model/field.py:69 | `int("a_b")` of two digit runs reads the digits of both, skipping the underscore |
| PyStr.QuotePlusUnreserved | ornitho/model/abstract/base_model.py:90 | `quote_plus` leaves letters, digits and `_.-~` unchanged |
| PyStr.QuotePlusInt | ornitho/model/abstract/base_model.py:90 | an integer id appears in a URL as `str` writes it |
| Values.GetItem | ornitho/model/observation.py:47 | `d[k]` on a dictionary succeeds iff the key is present, with its value |
| Values.SetItem | ornitho/model/form.py:85 | `d[k] = x` succeeds exactly on dictionaries and puts the key |
| Values.In | ornitho/model/observation.py:77 | `k in d` on a dictionary is key membership; on anything but a dictionary, list or string it raises |
| Values.Iterate | ornitho/model/observation.py:110 | iterating a list gives its items; a dictionary, its keys |
| Values.MapAll | ornitho/model/observation.py:117-120 | a list comprehension succeeds iff every element does, giving one result per element in order |
| Values.MapAllPointwise | ornitho/model/observation.py:117-120 | elementwise results make the comprehension's result |
| Values.MapAllFirstFailure | ornitho/model/observation.py:117-120 | the comprehension raises the error of the first failing element |
| Values.ToInt | ornitho/model/observation.py:47 | `int(v)`: an int as it is; a string iff it reads as an integer |
| Values.ToIntOfToStr | ornitho/model/abstract/base_model.py:90 | the text `str` makes of an int id reads back as that id |
| Values.SetThenGet | ornitho/model/form.py:133-134 | after `d[k] = x`, `d[k]` is `x` and every other key is as it was |
| Values.DelThenIn | ornitho/api_requester.py:122 | after `del d[k]`, `k` is no longer in `d` |
| Values.LookupAppend | ornitho/api_requester.py:224-245 | a key is looked up in the first list of entries, then in the second |
| Values.PutAllLookup | ornitho/api_requester.py:213-243 | after putting extra entries, a key has the extra value when given, its old one otherwise |
| Fields.OptionsBuilt | ornitho/model/field.py:64-69 | one option per record of the reply, in order, built by the given builder |

## Left out

- Time zones and the host clock: `datetime.now()`, `astimezone` and `fromtimestamp` depend on the machine's zone. Dates are modelled as values that are already local. Timestamp properties are not modelled: `timing`, `insert_date`, `update_date`, `day`, `last_login` and the other observer dates.
- Observations.Diff, Places.DiffDate, Places.Diff: a time-zone-aware date is sent as given. The conversion to naive local time (`ornitho/model/observation.py:341-346`, `ornitho/model/place.py:205-208`) is not modelled.
- Floating point: `lat`, `lon`, `coord_lat` and `coord_lon` are `float(...)` reads and are not modelled.
- `json.loads` is the parameter `parse`. `urlencode` is modelled only as far as the query's entries go, not as the final URL text.
- `requests` itself is out of scope. The HTTP exchange is a replayed `RawResponse`, and running out of replies is modelled as an `APIConnectionException`. The retry and timeout behaviour of the HTTP library is not modelled.
- Logging, `close`, `__enter__` and `__exit__` have no observable effect on the model.
- `get`, `create_from_ornitho_json`, `raw_data_trim_field_ids` of `Observation`, `Observation.create` and an `id_place` setter of `Observation` are called in `ornitho/model/form.py` and `ornitho/model/observation.py`, but the source files modelled here do not define them (`ornitho/model/abstract/base_model.py` defines `retrieve`, not `get`). The model assumes the behaviour their callers and `examples/forms/create_and_delete.py:61-68` expect: `Fetched(kind, id)` for `get`, the `decode` builder, the `trim` function, and a `withPlace` function that always succeeds.
- Forms.Placed: `id_place` at `ornitho/model/observation.py:201-203` is a read-only property. So `observation.id_place = self._id_place` at `ornitho/model/form.py:675` raises `AttributeError` once the form knows a place: a place passed to `create`, or any observation after the first. The model assumes the setter its caller expects (the total `withPlace`) and does not capture that failure. The same holds for `Forms.PlaceStep`, `Forms.Form.PlaceAll`, `Forms.Form.SetObservations` and `Forms.Form.Create`.
- `check_refresh` is not part of this model. The getters that use it are modelled on the record as it stands.
- Form.Create: only `create_in_ornitho=False` is modelled. The remote path (`ornitho/model/form.py:735-783`) is not: the dummy observation, the form id lookup, the chunked creates and the compensating delete. Of that path, only the chunk slicing (`Forms.Chunks`) is modelled.
- The lazy `observations` getter of `Form` (`ornitho/model/form.py:657-669`) is not modelled, because it may call `refresh` over the network. `raw_data_trim_field_ids` takes the observations as a parameter.
- ParseInt: `int()` is modelled on ASCII decimal literals with an optional sign and `_` separators. Surrounding whitespace and non-ASCII digits are not accepted.
- RightText: only strings are rendered. `str` of a list or dictionary name is not modelled.
- Places.Place.Municipality: the name of a fetched unit is the `nameOf` argument, since `LocalAdminUnit.name` reads a record this model does not fetch.
- Places.FindClosestPlace: returns the base `Model` that `list_all` builds, not a `Place` wrapper.
- Plain getters that only read one key are not repeated one by one. Those that read `self._raw_data[key]` and raise `KeyError` without it (`name` of fields, field options, places, protocols and the other named classes, `text`, `id_form_universal`, and `precision` and `source` of the first observer) are `Values.GetItem` reads, as `Protocols.Protocol.Name` shows. Those that test for the key first (`comment`) are `BaseModel.Optional`. Those that take `int(...)` of the value (`version`, `traid`, `altitude`, `count`, `flight_number`) are `BaseModel.IntField` (`flight_number` after testing for the key).
- Observations.MediaUrl: a `path` or `filename` that is a list, dictionary, bytes or date is an error (`TypeError`) in the model. Python's f-string would render its `str` instead. The model has no text for containers and dates (see `Values.Text`).
- Details.Str: a `sex` or `age` that is a list, dictionary, bytes or date has no text in the model (`None`), where Python's f-string would render its `str`. Detail records hold scalars there.
- BaseModel.FormRefreshed: the `APIException` message is `Unrecognized response` without the `: {data}` suffix of `ornitho/model/form.py:56`, because the model has no `str` of a dictionary. The exception class and the condition are as written.
- Values.PyEq: two dictionaries are equal in the model only with their entries in the same order, and booleans match integers only at the top level. Python's `==` ignores dictionary order and matches `True` with `1` at any depth. The model applies it to ids and to the `sex` and `age` of details.
- Forms.Form.SetObservations: `sightings` holds copies of the observations' records, where Python shares each observation's `_raw_data` dictionary. Later changes through an observation are not reflected in the form's record.
- Forms.Form.SetObservations: requires the observations to be distinct objects (also `Forms.Form.PlaceAll` and `Forms.Form.Create`). Python accepts the same observation twice; the model does not cover that aliasing.
- Forms.Form.PlaceAll: the same distinctness requirement, and the same copies of the records, as `Forms.Form.SetObservations`.
- ApiRequester.APIRequester.RequestRaw: requires `params` and `body` to be different dictionaries (also `FirstPage` and `Request`). Python accepts the same dictionary for both; the model does not cover that aliasing.
- `day` of a form reads a timestamp or the first observation's `timing`, so it falls under the time-zone line above.
- A test in `tests/model/test_protocol.py` expects `protocol/list_sites`. The code sends `protocol/sites` with `id_protocol` and the keys of the first record. The model follows the code (`Protocols.Protocol.FetchSites`).

## Findings

| source | as written | input that shows it | evidently intended | confidence | as-written member | corrected member |
|---|---|---|---|---|---|---|
| ornitho/model/form.py:726 | `key.lstrip("id_")` strips every leading `i`, `d` and `_`, not the prefix `id_` | header `id_drone_used` is stored under `rone_used`, while `id_drone_used` reads `drone_used` and finds nothing | store under the key without its `id_` prefix (`drone_used`) | high, not executed | Forms.HeaderKeyAsWritten, Forms.HeaderKeyAsWrittenDrone, Forms.HeaderLostAsWritten, Forms.Form.Create | Forms.HeaderKey, Forms.HeaderKept, Forms.Form.CreateIntended |
| ornitho/model/abstract/updateable_model.py:23 | `update` passes `retries=` to `BaseModel.request`, which has no such parameter | any `update()` call raises `TypeError` before sending | send the update request | high, not executed | UpdateableModel.UpdateAsWritten, UpdateableModel.RetriesRefused | UpdateableModel.Update |
| ornitho/model/field.py:69 | `options` builds each option with `FieldOption.create_from`, which takes `int(data["id"])` of an id such as `"1_12"` | option ids `"1_12"` and `"11_2"` both become 112, an id `FieldOption.get` refuses | keep the compound string id, as `create_from_ornitho_json` does | medium, not executed | Fields.Field.OptionsAsWritten, Fields.CreateFromMergesOptionIds | Fields.Field.Options, Fields.ListedOptionFound |
