/**
 `SwaggerApiResourceListing`: the configuration of one swagger group and
 the scan that assembles the group's documentation from the results of the
 reference scanner and of the listing scanner.
 */
module SwaggerCore {
  import opened Optional
  import opened ServiceModel
  import opened Ordering

  /** The swagger version every resource listing declares. */
  const SwaggerVersion: string := "1.2"

  /** The API version until `SetApiVersion` is called. */
  const DefaultApiVersion: string := "1"

  /** Guava's `Strings.nullToEmpty`. */
  function NullToEmpty(s: Option<string>): (r: string) {
    match s
    case None => ""
    case Some(v) => v
  }

  /** A description that starts with "http" is itself the location of its listing. */
  predicate SchemeQualified(description: Option<string>) {
    "http" <= NullToEmpty(description)
  }

  /**
   The location reported for a reference: a scheme-qualified description,
   or else the documentation base path, followed by the reference's path.
   */
  function Location(reference: ApiListingReference, basePath: string): (location: string)
    ensures |reference.path| <= |location|
    ensures location[|location| - |reference.path|..] == reference.path
    ensures SchemeQualified(reference.description) ==>
              location[..|location| - |reference.path|] == reference.description.value
    ensures !SchemeQualified(reference.description) ==>
              location[..|location| - |reference.path|] == basePath
  {
    var prefix := if SchemeQualified(reference.description) then reference.description.value else basePath;
    prefix + reference.path
  }

  /** A missing description is treated as the empty one. */
  lemma NullDescriptionIsEmpty(reference: ApiListingReference, basePath: string)
    ensures Location(reference.(description := None), basePath)
         == Location(reference.(description := Some("")), basePath)
         == basePath + reference.path
  {
  }

  /** A scheme-qualified location starts with "http", whatever the base path. */
  lemma SchemeQualifiedLocation(reference: ApiListingReference, basePath: string)
    requires SchemeQualified(reference.description)
    ensures "http" <= Location(reference, basePath)
  {
  }

  /** One line of the summary that the scan logs. */
  datatype ReportEntry = ReportEntry(description: Option<string>, location: string)

  /** The scan's log output: the missing-scanner error and the summary of the references. */
  datatype ScanReport = ScanReport(referenceScannerConfigured: bool, resourceCount: nat, entries: seq<ReportEntry>)

  /**
   `Collections.sort` of the references under `ordering`: the list is copied
   into an array and sorted there in place.
   */
  method SortReferences(references: seq<ApiListingReference>,
                        ordering: (ApiListingReference, ApiListingReference) -> bool)
    returns (apis: seq<ApiListingReference>)
    ensures apis == StableSort(ordering, references)
    ensures multiset(apis) == multiset(references)
    ensures TotalPreorder(ordering) ==>
              SortedBy(ordering, apis) && StableRearrangement(ordering, references, apis)
  {
    var sorted := new ApiListingReference[|references|](k requires 0 <= k < |references| => references[k]);
    assert sorted[..] == references;
    SortInPlace(sorted, ordering);
    apis := sorted[..];
    StableSortPermutation(ordering, references);
    if TotalPreorder(ordering) {
      StableSortSorted(ordering, references);
      StableSortStable(ordering, references);
    }
  }

  /** The summary lines logged for the sorted references, one per reference, in order. */
  method Summarize(apis: seq<ApiListingReference>, basePath: string) returns (entries: seq<ReportEntry>)
    ensures |entries| == |apis|
    ensures forall k :: 0 <= k < |apis| ==>
              entries[k] == ReportEntry(apis[k].description, Location(apis[k], basePath))
  {
    entries := [];
    var k := 0;
    while k < |apis|
      invariant 0 <= k <= |apis|
      invariant |entries| == k
      invariant forall m :: 0 <= m < k ==>
                  entries[m] == ReportEntry(apis[m].description, Location(apis[m], basePath))
    {
      var reference := apis[k];
      var prefix := if SchemeQualified(reference.description) then reference.description.value
                    else basePath;
      entries := entries + [ReportEntry(reference.description, prefix + reference.path)];
      k := k + 1;
    }
  }

  /** The values of all configuration fields. */
  datatype Configuration = Configuration(
    apiInfo: Option<ApiInfo>,
    authorizationTypes: Option<seq<AuthorizationType>>,
    authorizationContext: Option<AuthorizationContext>,
    apiListingReferenceScanner: Option<ApiListingReferenceScanner>,
    swaggerPathProvider: Option<SwaggerPathProvider>,
    swaggerGlobalSettings: Option<SwaggerGlobalSettings>,
    swaggerGroup: string,
    modelProvider: Option<ModelProvider>,
    apiVersion: string,
    apiListingReferenceOrdering: (ApiListingReference, ApiListingReference) -> bool,
    apiDescriptionOrdering: (ApiDescription, ApiDescription) -> bool,
    customAnnotationReaders: Option<seq<RequestMappingReader>>,
    requestMappingEvaluator: Option<RequestMappingEvaluator>)

  /** The configuration of a listing just constructed for `swaggerGroup`. */
  function DefaultConfiguration(swaggerGroup: string): (c: Configuration) {
    Configuration(None, None, None, None, None, None, swaggerGroup, None, DefaultApiVersion,
                  ResourceListingLexicographicalOrdering, ApiDescriptionLexicographicalOrdering, None, None)
  }

  class SwaggerApiResourceListing {
    var apiInfo: Option<ApiInfo>
    var authorizationTypes: Option<seq<AuthorizationType>>
    var authorizationContext: Option<AuthorizationContext>
    var apiListingReferenceScanner: Option<ApiListingReferenceScanner>
    var swaggerPathProvider: Option<SwaggerPathProvider>
    var swaggerGlobalSettings: Option<SwaggerGlobalSettings>
    var swaggerGroup: string
    var modelProvider: Option<ModelProvider>
    var apiVersion: string
    var apiListingReferenceOrdering: (ApiListingReference, ApiListingReference) -> bool
    var apiDescriptionOrdering: (ApiDescription, ApiDescription) -> bool
    var customAnnotationReaders: Option<seq<RequestMappingReader>>
    var requestMappingEvaluator: Option<RequestMappingEvaluator>

    ghost function Config(): Configuration
      reads this
    {
      Configuration(apiInfo, authorizationTypes, authorizationContext, apiListingReferenceScanner,
                    swaggerPathProvider, swaggerGlobalSettings, swaggerGroup, modelProvider, apiVersion,
                    apiListingReferenceOrdering, apiDescriptionOrdering, customAnnotationReaders,
                    requestMappingEvaluator)
    }

    constructor (swaggerGroup: string)
      ensures Config() == DefaultConfiguration(swaggerGroup)
    {
      this.swaggerGroup := swaggerGroup;
      apiInfo, authorizationTypes, authorizationContext := None, None, None;
      apiListingReferenceScanner, swaggerPathProvider, swaggerGlobalSettings := None, None, None;
      modelProvider, customAnnotationReaders, requestMappingEvaluator := None, None, None;
      apiVersion := DefaultApiVersion;
      apiListingReferenceOrdering := ResourceListingLexicographicalOrdering;
      apiDescriptionOrdering := ApiDescriptionLexicographicalOrdering;
    }

    /**
     Assembles the group. Without a reference scanner there are no references
     and no listings; with one, the references it found are sorted in place
     under the reference ordering and the listings are those of a listing
     scanner built from its results. The report holds one entry per sorted
     reference, with the location the summary logs for it.
     */
    method Scan(handlerMappings: seq<RequestMappingHandlerMapping>,
                scanApiListings: ApiListingScannerSettings -> map<string, ApiListing>)
      returns (group: Group, report: ScanReport)
      ensures group.name == swaggerGroup
      ensures apiListingReferenceScanner.None? ==>
                && group.apiListings.None?
                && group.resourceListing.apis == []
                && !report.referenceScannerConfigured
      ensures apiListingReferenceScanner.Some? ==>
                var scanner := apiListingReferenceScanner.value;
                var found := scanner.scan(handlerMappings);
                && report.referenceScannerConfigured
                && group.apiListings == Some(scanApiListings(ApiListingScannerSettings(
                     found.resourceGroupRequestMappings, swaggerPathProvider, modelProvider,
                     authorizationContext, customAnnotationReaders, requestMappingEvaluator,
                     apiDescriptionOrdering, swaggerGlobalSettings, scanner.resourceGroupingStrategy)))
                && group.resourceListing.apis == StableSort(apiListingReferenceOrdering, found.apiListingReferences)
                && multiset(group.resourceListing.apis) == multiset(found.apiListingReferences)
                && (TotalPreorder(apiListingReferenceOrdering) ==>
                      && SortedBy(apiListingReferenceOrdering, group.resourceListing.apis)
                      && StableRearrangement(apiListingReferenceOrdering, found.apiListingReferences,
                                             group.resourceListing.apis))
      ensures group.resourceListing.swaggerVersion == SwaggerVersion
      ensures group.resourceListing.apiVersion == apiVersion
      ensures group.resourceListing.authorizations ==
                if authorizationTypes.Some? then authorizationTypes.value else []
      ensures group.resourceListing.info == apiInfo
      ensures report.resourceCount == |group.resourceListing.apis|
      ensures |report.entries| == |group.resourceListing.apis|
      ensures forall k :: 0 <= k < |report.entries| ==>
                var reference := group.resourceListing.apis[k];
                report.entries[k] == ReportEntry(reference.description, Location(reference, DocumentationBasePath))
    {
      var references: seq<ApiListingReference> := [];
      var apiListings: Option<map<string, ApiListing>> := None;
      if apiListingReferenceScanner.Some? {
        var scanner := apiListingReferenceScanner.value;
        var found := scanner.scan(handlerMappings);
        references := found.apiListingReferences;
        var settings := ApiListingScannerSettings(
          found.resourceGroupRequestMappings, swaggerPathProvider, modelProvider,
          authorizationContext, customAnnotationReaders, requestMappingEvaluator,
          apiDescriptionOrdering, swaggerGlobalSettings, scanner.resourceGroupingStrategy);
        apiListings := Some(scanApiListings(settings));
      }

      var apis := SortReferences(references, apiListingReferenceOrdering);
      var resourceListing := ResourceListing(
        apiVersion, SwaggerVersion, apis,
        if authorizationTypes.None? then [] else authorizationTypes.value,
        apiInfo);
      var entries := Summarize(apis, DocumentationBasePath);
      group := Group(swaggerGroup, apiListings, resourceListing);
      report := ScanReport(apiListingReferenceScanner.Some?, |apis|, entries);
    }

    method SetApiInfo(apiInfo: Option<ApiInfo>)
      modifies this
      ensures Config() == old(Config()).(apiInfo := apiInfo)
    {
      this.apiInfo := apiInfo;
    }

    method SetAuthorizationTypes(authorizationTypes: Option<seq<AuthorizationType>>)
      modifies this
      ensures Config() == old(Config()).(authorizationTypes := authorizationTypes)
    {
      this.authorizationTypes := authorizationTypes;
    }

    method SetApiListingReferenceScanner(apiListingReferenceScanner: Option<ApiListingReferenceScanner>)
      modifies this
      ensures Config() == old(Config()).(apiListingReferenceScanner := apiListingReferenceScanner)
    {
      this.apiListingReferenceScanner := apiListingReferenceScanner;
    }

    method SetSwaggerPathProvider(swaggerPathProvider: Option<SwaggerPathProvider>)
      modifies this
      ensures Config() == old(Config()).(swaggerPathProvider := swaggerPathProvider)
    {
      this.swaggerPathProvider := swaggerPathProvider;
    }

    method SetSwaggerGlobalSettings(swaggerGlobalSettings: Option<SwaggerGlobalSettings>)
      modifies this
      ensures Config() == old(Config()).(swaggerGlobalSettings := swaggerGlobalSettings)
    {
      this.swaggerGlobalSettings := swaggerGlobalSettings;
    }

    method SetAuthorizationContext(authorizationContext: Option<AuthorizationContext>)
      modifies this
      ensures Config() == old(Config()).(authorizationContext := authorizationContext)
    {
      this.authorizationContext := authorizationContext;
    }

    method SetModelProvider(modelProvider: Option<ModelProvider>)
      modifies this
      ensures Config() == old(Config()).(modelProvider := modelProvider)
    {
      this.modelProvider := modelProvider;
    }

    method SetApiVersion(apiVersion: string)
      modifies this
      ensures Config() == old(Config()).(apiVersion := apiVersion)
    {
      this.apiVersion := apiVersion;
    }

    method SetApiListingReferenceOrdering(apiListingReferenceOrdering: (ApiListingReference, ApiListingReference) -> bool)
      modifies this
      ensures Config() == old(Config()).(apiListingReferenceOrdering := apiListingReferenceOrdering)
    {
      this.apiListingReferenceOrdering := apiListingReferenceOrdering;
    }

    method SetApiDescriptionOrdering(apiDescriptionOrdering: (ApiDescription, ApiDescription) -> bool)
      modifies this
      ensures Config() == old(Config()).(apiDescriptionOrdering := apiDescriptionOrdering)
    {
      this.apiDescriptionOrdering := apiDescriptionOrdering;
    }

    method SetCustomAnnotationReaders(customAnnotationReaders: Option<seq<RequestMappingReader>>)
      modifies this
      ensures Config() == old(Config()).(customAnnotationReaders := customAnnotationReaders)
    {
      this.customAnnotationReaders := customAnnotationReaders;
    }

    method SetRequestMappingEvaluator(requestMappingEvaluator: Option<RequestMappingEvaluator>)
      modifies this
      ensures Config() == old(Config()).(requestMappingEvaluator := requestMappingEvaluator)
    {
      this.requestMappingEvaluator := requestMappingEvaluator;
    }
  }

  /**
   A listing that was only constructed documents nothing: version "1",
   swagger version "1.2", no references, no authorizations, no information
   and no listings.
   */
  method ScanUnconfigured(swaggerGroup: string, handlerMappings: seq<RequestMappingHandlerMapping>,
                          scanApiListings: ApiListingScannerSettings -> map<string, ApiListing>)
    returns (group: Group, report: ScanReport)
    ensures group == Group(swaggerGroup, None, ResourceListing("1", "1.2", [], [], None))
    ensures report == ScanReport(false, 0, [])
  {
    var listing := new SwaggerApiResourceListing(swaggerGroup);
    group, report := listing.Scan(handlerMappings, scanApiListings);
  }

  /**
   The API version in the resource listing is the one set last.
   */
  method ScanAfterSettingApiVersion(swaggerGroup: string, first: string, last: string,
                                    handlerMappings: seq<RequestMappingHandlerMapping>,
                                    scanApiListings: ApiListingScannerSettings -> map<string, ApiListing>)
    returns (group: Group)
    ensures group.resourceListing.apiVersion == last
    ensures group.resourceListing.swaggerVersion == "1.2"
    ensures group.name == swaggerGroup
  {
    var listing := new SwaggerApiResourceListing(swaggerGroup);
    listing.SetApiVersion(first);
    listing.SetApiVersion(last);
    var report;
    group, report := listing.Scan(handlerMappings, scanApiListings);
  }

  /**
   With the default reference ordering and a configured reference scanner,
   the references come out sorted, and references that compare equal keep
   the order in which the scanner found them.
   */
  method ScanWithDefaultOrdering(swaggerGroup: string, scanner: ApiListingReferenceScanner,
                                 handlerMappings: seq<RequestMappingHandlerMapping>,
                                 scanApiListings: ApiListingScannerSettings -> map<string, ApiListing>)
    returns (group: Group)
    ensures var found := scanner.scan(handlerMappings).apiListingReferences;
            && group.resourceListing.apis == StableSort(ResourceListingLexicographicalOrdering, found)
            && SortedBy(ResourceListingLexicographicalOrdering, group.resourceListing.apis)
            && StableRearrangement(ResourceListingLexicographicalOrdering, found, group.resourceListing.apis)
  {
    var listing := new SwaggerApiResourceListing(swaggerGroup);
    listing.SetApiListingReferenceScanner(Some(scanner));
    var report;
    group, report := listing.Scan(handlerMappings, scanApiListings);
  }
}
