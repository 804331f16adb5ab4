/**
 * The decision logic of the Astra DB vector-store component: which search
 * call to make and with which arguments, how the database and collection
 * dropdowns are refreshed in the component's build configuration, and which
 * API endpoint and keyspace the component uses. Every call to Astra DB is
 * replaced by its result, passed in as a parameter.
 */
module AstraDB {
  import opened Common

  /** A Python value as it appears in component inputs, search arguments and option records. */
  datatype Value =
    | Null
    | Bool(b: bool)
    | Int(i: int)
    | Float(x: real)
    | Str(s: string)
    | List(items: seq<Value>)
    | Dict(entries: map<string, Value>)

  /** Python truthiness: `None`, `False`, zero, `""`, `[]` and `{}` are false. */
  predicate Truthy(v: Value): (truthy: bool)
    ensures !truthy <==> v in {Null, Bool(false), Int(0), Float(0.0), Str(""), List([]), Dict(map[])}
  {
    match v
    case Null => false
    case Bool(b) => b
    case Int(i) => i != 0
    case Float(x) => x != 0.0
    case Str(s) => s != ""
    case List(items) => items != []
    case Dict(entries) => entries != map[]
  }

  // ---------------------------------------------------------------------------
  // Search

  /** The component's dropdown labels that have a LangChain search type of their own. */
  const SearchTypeMapping: map<string, string> :=
    map["Similarity with score threshold" := "similarity_score_threshold",
        "MMR (Max Marginal Relevance)" := "mmr"]

  /** The three labels offered by the component's "Search Type" dropdown. */
  const SearchTypeOptions: seq<string> :=
    ["Similarity", "Similarity with score threshold", "MMR (Max Marginal Relevance)"]

  /** Translates the dropdown label into the search type LangChain expects; anything unknown is plain similarity. */
  function MapSearchType(searchType: string): (r: string)
    ensures searchType == "Similarity with score threshold" <==> r == "similarity_score_threshold"
    ensures searchType == "MMR (Max Marginal Relevance)" <==> r == "mmr"
    ensures searchType != "Similarity with score threshold" && searchType != "MMR (Max Marginal Relevance)"
            <==> r == "similarity"
  {
    if searchType in SearchTypeMapping then SearchTypeMapping[searchType] else "similarity"
  }

  /** The three dropdown labels select three different search types. */
  lemma SearchTypeOptionsDistinct()
    ensures forall i, j :: 0 <= i < j < |SearchTypeOptions| ==>
              MapSearchType(SearchTypeOptions[i]) != MapSearchType(SearchTypeOptions[j])
  {
  }

  /** The component inputs that `_build_search_args` reads. */
  datatype SearchInputs = SearchInputs(
    searchQuery: Value,
    searchType: string,
    numberOfResults: int,
    scoreThreshold: real,
    advancedSearchFilter: Value)

  /** The search query is usable: a string with some non-whitespace content. */
  predicate HasQuery(q: Value): (usable: bool)
    ensures usable <==> q.Str? && exists i :: 0 <= i < |q.s| && !IsSpace(q.s[i])
  {
    q.Str? && !Blank(q.s)
  }

  /** The keys of the arguments of a search with a query, before the filter is added. */
  const QueryKeys: set<string> := {"query", "search_type", "k", "score_threshold"}

  function QueryArgs(c: SearchInputs): (args: map<string, Value>)
    ensures args.Keys == QueryKeys
  {
    map["query" := c.searchQuery,
        "search_type" := Str(MapSearchType(c.searchType)),
        "k" := Int(c.numberOfResults),
        "score_threshold" := Float(c.scoreThreshold)]
  }

  /** `args["filter"] = filter_arg` when the filter is truthy. */
  function WithFilter(args: map<string, Value>, filter: Value): (r: map<string, Value>)
    ensures forall k :: k in r <==> k in args || (k == "filter" && Truthy(filter))
    ensures forall k :: k in args && k != "filter" ==> r[k] == args[k]
    ensures Truthy(filter) ==> r["filter"] == filter
  {
    if Truthy(filter) then args["filter" := filter] else args
  }

  /**
   * The keyword arguments of the vector-store search. With a usable query
   * they ask for a similarity search of `k` results; with only a filter they
   * ask for a metadata search of `n` results; with neither they are empty.
   */
  function BuildSearchArgs(c: SearchInputs): (args: map<string, Value>)
    ensures !HasQuery(c.searchQuery) && !Truthy(c.advancedSearchFilter) ==> args == map[]
    ensures "query" in args <==> HasQuery(c.searchQuery)
    ensures "filter" in args <==> Truthy(c.advancedSearchFilter)
    ensures "filter" in args ==> args["filter"] == c.advancedSearchFilter
  {
    if HasQuery(c.searchQuery) then
      var args := WithFilter(QueryArgs(c), c.advancedSearchFilter);
      assert "query" in args;
      args
    else if Truthy(c.advancedSearchFilter) then
      var args := WithFilter(map["n" := Int(c.numberOfResults)], c.advancedSearchFilter);
      assert "n" in args;
      args
    else
      map[]
  }

  /** The test `search_query and search_query.strip()`: a usable query is a string whose stripped form is not empty. */
  lemma HasQueryIsStripped(q: Value)
    ensures HasQuery(q) <==> q.Str? && Strip(q.s) != ""
  {
  }

  /**
   * With a usable query the arguments are the query as given (not stripped),
   * the mapped search type, `k` results and the score threshold, plus the
   * filter when there is one.
   */
  lemma SearchArgsWithQuery(c: SearchInputs)
    requires HasQuery(c.searchQuery)
    ensures var args := BuildSearchArgs(c);
      && (forall k :: k in args <==> k in QueryKeys || (k == "filter" && Truthy(c.advancedSearchFilter)))
      && args["query"] == c.searchQuery
      && args["search_type"] == Str(MapSearchType(c.searchType))
      && args["k"] == Int(c.numberOfResults)
      && args["score_threshold"] == Float(c.scoreThreshold)
  {
    var q := QueryArgs(c);
    assert BuildSearchArgs(c) == WithFilter(q, c.advancedSearchFilter);
  }

  /** No search is asked for exactly when the query is missing or blank and the filter is empty or missing. */
  lemma SearchArgsEmpty(c: SearchInputs)
    ensures BuildSearchArgs(c) == map[] <==>
              !(c.searchQuery.Str? && !Blank(c.searchQuery.s)) && !Truthy(c.advancedSearchFilter)
  {
    if HasQuery(c.searchQuery) {
      assert "query" in BuildSearchArgs(c);
    } else if Truthy(c.advancedSearchFilter) {
      assert "filter" in BuildSearchArgs(c);
    }
  }

  /** Without a usable query but with a filter, the arguments are exactly `n` results and the filter. */
  lemma SearchArgsFilterOnly(c: SearchInputs)
    requires !HasQuery(c.searchQuery) && Truthy(c.advancedSearchFilter)
    ensures BuildSearchArgs(c) == map["n" := Int(c.numberOfResults), "filter" := c.advancedSearchFilter]
  {
  }

  /** What `search_documents` does with the vector store. */
  datatype SearchCall =
    | SkipSearch                                 // logs and returns [] without searching
    | Search(args: map<string, Value>)           // vector_store.search(**args)
    | MetadataSearch(args: map<string, Value>)   // vector_store.metadata_search(**args)

  /**
   * The choice made by `search_documents`: no call when the arguments are
   * empty, `search` when they hold a query, `metadata_search` otherwise.
   */
  function PlanSearch(c: SearchInputs): (call: SearchCall)
    ensures call.SkipSearch? <==> !HasQuery(c.searchQuery) && !Truthy(c.advancedSearchFilter)
    ensures call.Search? <==> HasQuery(c.searchQuery)
    ensures call.MetadataSearch? <==> !HasQuery(c.searchQuery) && Truthy(c.advancedSearchFilter)
    ensures !call.SkipSearch? ==> call.args == BuildSearchArgs(c) && call.args != map[]
  {
    var args := BuildSearchArgs(c);
    if args == map[] then SkipSearch
    else if "query" in args then Search(args)
    else MetadataSearch(args)
  }

  // ---------------------------------------------------------------------------
  // Endpoint and keyspace

  /** One entry of the database list: its generated API endpoint and its number of collections. */
  datatype DatabaseInfo = DatabaseInfo(apiEndpoint: string, collections: nat)

  /** `.get(name)` gave `None` and `.get("api_endpoint")` was then called on it. */
  datatype LookupError = NoneTypeHasNoGet

  /**
   * The endpoint the component talks to: the configured endpoint wins; with
   * no endpoint and no database name there is none; otherwise it is looked
   * up in the database list, and a name missing from that list raises.
   */
  function GetApiEndpoint(apiEndpoint: Option<string>, databaseName: Option<string>,
                          databases: map<string, DatabaseInfo>): (r: Result<Option<string>, LookupError>)
    ensures Present(apiEndpoint) ==> r == Ok(apiEndpoint)
    ensures r == Ok(None) <==> !Present(apiEndpoint) && !Present(databaseName)
    ensures r.Err? <==> !Present(apiEndpoint) && Present(databaseName) && databaseName.value !in databases
    ensures !Present(apiEndpoint) && Present(databaseName) && databaseName.value in databases ==>
              r == Ok(Some(databases[databaseName.value].apiEndpoint))
  {
    if Present(apiEndpoint) then Ok(apiEndpoint)
    else if !Present(databaseName) then Ok(None)
    else if databaseName.value in databases then Ok(Some(databases[databaseName.value].apiEndpoint))
    else Err(NoneTypeHasNoGet)
  }

  /**
   * The keyspace handed to Astra DB: the stripped keyspace when one is set,
   * otherwise none. A keyspace of only whitespace is set, and strips to "".
   */
  function GetKeyspace(keyspace: Option<string>): (r: Option<string>)
    ensures r.Some? <==> Present(keyspace)
    ensures r.Some? ==> r.value == Strip(keyspace.value)
    ensures r.Some? ==>
              exists k :: (InfixAt(r.value, keyspace.value, k) && BlankRange(keyspace.value, 0, k) &&
                           BlankRange(keyspace.value, k + |r.value|, |keyspace.value|))
    ensures r.Some? && r.value != "" ==> !IsSpace(r.value[0]) && !IsSpace(r.value[|r.value| - 1])
    ensures r == Some("") <==> Present(keyspace) && Blank(keyspace.value)
  {
    if Present(keyspace) then Some(Strip(keyspace.value)) else None
  }

  // ---------------------------------------------------------------------------
  // Refreshing the dropdowns in the build configuration

  /** A dictionary such as `{"name": ..., "collections": ...}`. */
  type Record = map<string, Value>

  predicate AllNamed(records: seq<Record>) {
    forall r :: r in records ==> "name" in r
  }

  /** `[db["name"] for db in records]`: the dropdown options, in record order. */
  function OptionNames(records: seq<Record>): (names: seq<Value>)
    requires AllNamed(records)
    ensures |names| == |records|
    ensures forall i :: 0 <= i < |records| ==> names[i] == records[i]["name"]
  {
    if records == [] then [] else [records[0]["name"]] + OptionNames(records[1..])
  }

  /**
   * `[{k: v for k, v in db.items() if k not in ["name"]} for db in records]`:
   * the options' metadata, parallel to the options, each record without its name.
   */
  function OptionsMetadata(records: seq<Record>): (metadata: seq<Value>)
    ensures |metadata| == |records|
    ensures forall i :: 0 <= i < |records| ==>
              && metadata[i].Dict?
              && metadata[i].entries.Keys == records[i].Keys - {"name"}
              && forall k :: k in metadata[i].entries ==> metadata[i].entries[k] == records[i][k]
  {
    if records == [] then [] else [Dict(records[0] - {"name"})] + OptionsMetadata(records[1..])
  }

  /** The split into options and metadata loses nothing: record i is metadata i plus name i. */
  lemma {:induction false} OptionsSplitRecombines(records: seq<Record>, i: nat)
    requires AllNamed(records) && i < |records|
    ensures OptionsMetadata(records)[i].entries["name" := OptionNames(records)[i]] == records[i]
  {
    var m := OptionsMetadata(records)[i].entries["name" := OptionNames(records)[i]];
    assert records[i] in records;
    assert m.Keys == records[i].Keys;
  }

  /**
   * Which of the two fields is advanced, as (api_endpoint, database_name):
   * with a token but no databases the endpoint field is brought forward and
   * the database field hidden; otherwise the other way round.
   */
  function AdvancedFlags(token: Option<string>, databaseOptions: seq<Record>): (flags: (bool, bool))
    ensures flags.0 != flags.1
    ensures !flags.0 <==> Present(token) && |databaseOptions| == 0
  {
    if Present(token) && databaseOptions == [] then (false, true) else (true, false)
  }

  predicate HasDropdownFields(config: map<string, Record>) {
    "database_name" in config && "api_endpoint" in config && "collection_name" in config
  }

  /**
   * A dropdown field after its options were refreshed: `options` holds the
   * records' names and `options_metadata` the rest of each record; every
   * other entry of the field is kept.
   */
  function Refreshed(field: Record, records: seq<Record>): (r: Record)
    requires AllNamed(records)
    ensures forall k :: k in r <==> k in field || k == "options" || k == "options_metadata"
    ensures r["options"] == List(OptionNames(records))
    ensures r["options_metadata"] == List(OptionsMetadata(records))
    ensures forall k :: k in field && k !in {"options", "options_metadata"} ==> r[k] == field[k]
  {
    field["options" := List(OptionNames(records))]["options_metadata" := List(OptionsMetadata(records))]
  }

  /** A field with its `advanced` entry set; every other entry is kept. */
  function Advanced(field: Record, advanced: bool): (r: Record)
    ensures forall k :: k in r <==> k in field || k == "advanced"
    ensures r["advanced"] == Bool(advanced)
    ensures forall k :: k in field && k != "advanced" ==> r[k] == field[k]
  {
    field["advanced" := Bool(advanced)]
  }

  /** The build configuration after `update_build_config`, given the two option lists it fetched. */
  function UpdatedConfig(config: map<string, Record>, token: Option<string>,
                         databaseOptions: seq<Record>, collectionOptions: seq<Record>): (updated: map<string, Record>)
    requires HasDropdownFields(config)
    requires AllNamed(databaseOptions) && AllNamed(collectionOptions)
    ensures forall f :: f in updated <==> f in config
    ensures forall f :: f in config && f !in {"database_name", "api_endpoint", "collection_name"} ==>
              updated[f] == config[f]
  {
    var flags := AdvancedFlags(token, databaseOptions);
    var database := Advanced(Refreshed(config["database_name"], databaseOptions), flags.1);
    var endpoint := Advanced(config["api_endpoint"], flags.0);
    var collection := Refreshed(config["collection_name"], collectionOptions);
    config["database_name" := database]["api_endpoint" := endpoint]["collection_name" := collection]
  }

  /**
   * What `update_build_config` promises for the dropdowns: databases and
   * collections are refreshed alike, and the two "advanced" flags always differ.
   */
  lemma UpdatedConfigDropdowns(config: map<string, Record>, token: Option<string>,
                               databaseOptions: seq<Record>, collectionOptions: seq<Record>)
    requires HasDropdownFields(config)
    requires AllNamed(databaseOptions) && AllNamed(collectionOptions)
    ensures var u := UpdatedConfig(config, token, databaseOptions, collectionOptions);
      && u["database_name"]["options"] == List(OptionNames(databaseOptions))
      && u["database_name"]["options_metadata"] == List(OptionsMetadata(databaseOptions))
      && u["collection_name"]["options"] == List(OptionNames(collectionOptions))
      && u["collection_name"]["options_metadata"] == List(OptionsMetadata(collectionOptions))
      && u["api_endpoint"]["advanced"].Bool?
      && u["database_name"]["advanced"] == Bool(!u["api_endpoint"]["advanced"].b)
      && (u["api_endpoint"]["advanced"] == Bool(false) <==> Present(token) && databaseOptions == [])
  {
  }

  /** The database field gains its options, metadata and flag; every other entry of it is left alone. */
  lemma UpdatedDatabaseField(config: map<string, Record>, token: Option<string>,
                             databaseOptions: seq<Record>, collectionOptions: seq<Record>)
    requires HasDropdownFields(config)
    requires AllNamed(databaseOptions) && AllNamed(collectionOptions)
    ensures var field := UpdatedConfig(config, token, databaseOptions, collectionOptions)["database_name"];
      && field.Keys == config["database_name"].Keys + {"options", "options_metadata", "advanced"}
      && forall k :: k in config["database_name"] && k !in {"options", "options_metadata", "advanced"} ==>
           field[k] == config["database_name"][k]
  {
    var field := UpdatedConfig(config, token, databaseOptions, collectionOptions)["database_name"];
    var refreshed := Refreshed(config["database_name"], databaseOptions);
    assert field == Advanced(refreshed, AdvancedFlags(token, databaseOptions).1);
    assert forall k :: k in field <==> k in config["database_name"] || k in {"options", "options_metadata", "advanced"};
  }

  /** The endpoint field gains only its flag; every other entry of it is left alone. */
  lemma UpdatedEndpointField(config: map<string, Record>, token: Option<string>,
                             databaseOptions: seq<Record>, collectionOptions: seq<Record>)
    requires HasDropdownFields(config)
    requires AllNamed(databaseOptions) && AllNamed(collectionOptions)
    ensures var field := UpdatedConfig(config, token, databaseOptions, collectionOptions)["api_endpoint"];
      && field.Keys == config["api_endpoint"].Keys + {"advanced"}
      && forall k :: k in config["api_endpoint"] && k != "advanced" ==> field[k] == config["api_endpoint"][k]
  {
  }

  /** The collection field gains its options and metadata, not a flag; every other entry of it is left alone. */
  lemma UpdatedCollectionField(config: map<string, Record>, token: Option<string>,
                               databaseOptions: seq<Record>, collectionOptions: seq<Record>)
    requires HasDropdownFields(config)
    requires AllNamed(databaseOptions) && AllNamed(collectionOptions)
    ensures var field := UpdatedConfig(config, token, databaseOptions, collectionOptions)["collection_name"];
      && field.Keys == config["collection_name"].Keys + {"options", "options_metadata"}
      && forall k :: k in config["collection_name"] && k !in {"options", "options_metadata"} ==>
           field[k] == config["collection_name"][k]
  {
  }

  /** The component's build configuration, a dictionary of field settings that is updated in place. */
  class BuildConfig {
    var fields: map<string, Record>

    constructor (fields: map<string, Record>)
      ensures this.fields == fields
    {
      this.fields := fields;
    }

    /**
     * `update_build_config`: `databaseOptions` and `collectionOptions` are
     * what `_initialize_database_options` and `_initialize_collection_options`
     * returned.
     */
    method UpdateBuildConfig(token: Option<string>, databaseOptions: seq<Record>, collectionOptions: seq<Record>)
      requires HasDropdownFields(fields)
      requires AllNamed(databaseOptions) && AllNamed(collectionOptions)
      modifies this
      ensures fields == UpdatedConfig(old(fields), token, databaseOptions, collectionOptions)
    {
      var flags := AdvancedFlags(token, databaseOptions);
      fields := fields["database_name" := Advanced(Refreshed(fields["database_name"], databaseOptions), flags.1)];
      fields := fields["api_endpoint" := Advanced(fields["api_endpoint"], flags.0)];
      fields := fields["collection_name" := Refreshed(fields["collection_name"], collectionOptions)];
    }
  }
}
