/** Absence of a value: the model of a Java reference that may be null. */
module Optional {
  datatype Option<+T> = None | Some(value: T)
}

/**
 The service model that a scan produces (`com.mangofactory.service.model`),
 and the collaborators of the resource listing whose code is not part of
 this model. Those collaborators appear as opaque types and constants: the
 model says how the resource listing passes them around, never what they
 contain.
 */
module ServiceModel {
  import opened Optional
  import opened Ordering

  // Collaborators whose contents the resource listing never inspects.
  type ApiInfo
  type AuthorizationType
  type AuthorizationContext
  type SwaggerPathProvider
  type SwaggerGlobalSettings
  type ModelProvider
  type RequestMappingReader
  type RequestMappingEvaluator
  type RequestMappingHandlerMapping
  type RequestMappingContext
  type ResourceGroup(==)
  type ResourceGroupingStrategy
  type ApiDescription(!new)
  type ApiListing

  /** The summary entry of one resource group in the resource listing. */
  datatype ApiListingReference = ApiListingReference(path: string, description: Option<string>, position: int)

  /**
   The resource listing of section 5.1 of the Swagger 1.2 specification:
   its version fields, the references to the API listings, the declared
   authorization types and the API information.
   */
  datatype ResourceListing = ResourceListing(
    apiVersion: string,
    swaggerVersion: string,
    apis: seq<ApiListingReference>,
    authorizations: seq<AuthorizationType>,
    info: Option<ApiInfo>)

  /**
   The documentation of one swagger group. `apiListings` is `None` when the
   group builder was never given listings.
   */
  datatype Group = Group(
    name: string,
    apiListings: Option<map<string, ApiListing>>,
    resourceListing: ResourceListing)

  /** What an `ApiListingReferenceScanner` reports after scanning the handler mappings. */
  datatype ReferenceScan = ReferenceScan(
    apiListingReferences: seq<ApiListingReference>,
    resourceGroupRequestMappings: map<ResourceGroup, seq<RequestMappingContext>>)

  /**
   An `ApiListingReferenceScanner`: `scan` gives what its getters return
   after it has scanned the given handler mappings.
   */
  datatype ApiListingReferenceScanner = ApiListingReferenceScanner(
    scan: seq<RequestMappingHandlerMapping> -> ReferenceScan,
    resourceGroupingStrategy: ResourceGroupingStrategy)

  /**
   Everything an `ApiListingScanner` is built and configured with: its
   constructor arguments, then the description ordering, the global
   settings and the grouping strategy given to its setters.
   */
  datatype ApiListingScannerSettings = ApiListingScannerSettings(
    resourceGroupRequestMappings: map<ResourceGroup, seq<RequestMappingContext>>,
    swaggerPathProvider: Option<SwaggerPathProvider>,
    modelProvider: Option<ModelProvider>,
    authorizationContext: Option<AuthorizationContext>,
    customAnnotationReaders: Option<seq<RequestMappingReader>>,
    requestMappingEvaluator: Option<RequestMappingEvaluator>,
    apiDescriptionOrdering: (ApiDescription, ApiDescription) -> bool,
    swaggerGlobalSettings: Option<SwaggerGlobalSettings>,
    resourceGroupingStrategy: ResourceGroupingStrategy)

  /**
   `ResourceListingLexicographicalOrdering`, as a "less or equal" relation.
   Its body is not part of this model; as a Guava `Ordering` it keeps the
   comparator contract, so it is a total preorder.
   */
  const ResourceListingLexicographicalOrdering: Comparator<ApiListingReference>

  /** `ApiDescriptionLexicographicalOrdering`, as a "less or equal" relation, likewise. */
  const ApiDescriptionLexicographicalOrdering: Comparator<ApiDescription>

  /** `DefaultSwaggerController.DOCUMENTATION_BASE_PATH`. */
  const DocumentationBasePath: string
}
