# SwaggerApiResourceListing, modelled in Dafny

This project models the assembly step of swagger-springmvc's
`SwaggerApiResourceListing`. That class holds the configuration of one
swagger group. Its `scan` turns the results of the API listing reference
scanner and the API listing scanner into a `Group`. A `Group` holds the
group's name, its map of API listings and its resource listing. The
resource listing is the object of section 5.1 of the Swagger 1.2
specification: API version, swagger version, the references to the API
listings, the authorization types and the API information.

Files:

- `service_model.dfy`: modules `Optional` (a Java reference that may be
  null) and `ServiceModel`. `ServiceModel` holds the service model types
  (`ApiListingReference`, `ResourceListing`, `Group`) and the
  collaborators. The collaborators whose code is not part of this model
  are opaque types and constants: the path provider, the model provider,
  the readers, the two lexicographic orderings and `DOCUMENTATION_BASE_PATH`.
  The two orderings have the type `Comparator`: relations that are total
  preorders, as the relation `compare(x, y) <= 0` of every Guava `Ordering`
  that keeps the comparator contract is.
  The reference scanner is a value. It pairs a function from handler
  mappings to what its getters return after a scan with its grouping
  strategy.
- `ordering.dfy`: module `Ordering`. A Guava `Ordering` is modelled as a
  "less or equal" relation, standing for `compare(x, y) <= 0`.
  `Collections.sort` is modelled by an in-place stable insertion sort on
  an array (`SortInPlace`). Its result is the function `StableSort`,
  about which the lemmas prove four things:
  - it is a permutation of its input;
  - under a total preorder it is sorted and stable;
  - it leaves an already sorted input unchanged;
  - it is the only sorted, stable rearrangement of its input. So for a
    comparator that keeps the `Comparator` contract, any stable sort,
    including the merge sort that `Collections.sort` uses, computes it.
- `swagger_api_resource_listing.dfy`: module `SwaggerCore`. The class
  `SwaggerApiResourceListing` has the Java class's thirteen fields, its
  constructor, `Scan` and the setters. It also holds the location prefix
  rule of the scan's summary (`Location`). `Scan` returns the summary it
  would log as a `ScanReport`.

The listing scanner that `scan` builds is a parameter of `Scan`.
`scanApiListings` maps everything the `ApiListingScanner` is built and
configured with (`ApiListingScannerSettings`) to the map its `scan()`
returns. The handler mappings are values of an opaque type.

With no reference scanner configured, `scan` logs an error and still
returns a group with no listings and an empty `apis`; it does not abort.
The tie-breaking of the default orderings is not modelled: their bodies are
not part of this model.

## Model

| member | source | states |
|---|---|---|
| `SwaggerCore.SwaggerApiResourceListing.constructor` | swagger-springmvc/src/main/java/com/mangofactory/swagger/core/SwaggerApiResourceListing.java:40-55 | the group name is the argument; the API version is "1"; both orderings are the lexicographic ones; every other field is null |
| `SwaggerCore.SwaggerApiResourceListing.Scan` | swagger-springmvc/src/main/java/com/mangofactory/swagger/core/SwaggerApiResourceListing.java:57-103 | the group's name is the configured group. With no reference scanner, no listings are attached, `apis` is empty and the error is reported. With one, the listings are exactly what a listing scanner returns when built from the scanner's group-to-mappings map, its grouping strategy, the configured collaborators and the description ordering. `apis` is then the stable sort of the scanner's references: a permutation of them, and sorted and stable when the ordering is a total preorder. Swagger version is "1.2"; API version is the configured one; authorizations are the configured list, or empty when null; info is passed through. The report has one entry per sorted reference, holding its description and location |
| `SwaggerCore.SortReferences` | swagger-springmvc/src/main/java/com/mangofactory/swagger/core/SwaggerApiResourceListing.java:80 | the sorted references are `StableSort` of the input: a permutation of it, and sorted and stable under a total preorder |
| `SwaggerCore.Summarize` | swagger-springmvc/src/main/java/com/mangofactory/swagger/core/SwaggerApiResourceListing.java:90-100 | one summary entry per reference, in order, holding the reference's description and its location |
| `SwaggerCore.Location` | swagger-springmvc/src/main/java/com/mangofactory/swagger/core/SwaggerApiResourceListing.java:92-99 | the location ends with the reference's path. What precedes the path is the description if it starts with "http", and the documentation base path otherwise |
| `SwaggerCore.NullDescriptionIsEmpty` | swagger-springmvc/src/main/java/com/mangofactory/swagger/core/SwaggerApiResourceListing.java:92-97 | a null description gives the same location as an empty one: the base path followed by the path |
| `SwaggerCore.SchemeQualifiedLocation` | swagger-springmvc/src/main/java/com/mangofactory/swagger/core/SwaggerApiResourceListing.java:94-95 | when the description starts with "http", so does the location, whatever the base path |
| `SwaggerCore.ScanUnconfigured` | swagger-springmvc/src/main/java/com/mangofactory/swagger/core/SwaggerApiResourceListing.java:53-88 | a listing that was only constructed scans to a group with no listings and a resource listing with version "1", swagger version "1.2", no references, no authorizations and no info |
| `SwaggerCore.ScanWithDefaultOrdering` | swagger-springmvc/src/main/java/com/mangofactory/swagger/core/SwaggerApiResourceListing.java:49-85 | with the default reference ordering and a configured reference scanner, `apis` is sorted under that ordering, and references that compare equal keep the scanner's order |
| `SwaggerCore.ScanAfterSettingApiVersion` | swagger-springmvc/src/main/java/com/mangofactory/swagger/core/SwaggerApiResourceListing.java:146-148 | after two calls to `setApiVersion`, the scanned resource listing carries the version set last, and swagger version "1.2" |
| `SwaggerCore.SwaggerApiResourceListing.SetApiInfo` | swagger-springmvc/src/main/java/com/mangofactory/swagger/core/SwaggerApiResourceListing.java:106-108 | only the API info changes, to the argument |
| `SwaggerCore.SwaggerApiResourceListing.SetAuthorizationTypes` | swagger-springmvc/src/main/java/com/mangofactory/swagger/core/SwaggerApiResourceListing.java:114-116 | only the authorization types change, to the argument |
| `SwaggerCore.SwaggerApiResourceListing.SetApiListingReferenceScanner` | swagger-springmvc/src/main/java/com/mangofactory/swagger/core/SwaggerApiResourceListing.java:118-120 | only the reference scanner changes, to the argument |
| `SwaggerCore.SwaggerApiResourceListing.SetSwaggerPathProvider` | swagger-springmvc/src/main/java/com/mangofactory/swagger/core/SwaggerApiResourceListing.java:126-128 | only the path provider changes, to the argument |
| `SwaggerCore.SwaggerApiResourceListing.SetSwaggerGlobalSettings` | swagger-springmvc/src/main/java/com/mangofactory/swagger/core/SwaggerApiResourceListing.java:134-136 | only the global settings change, to the argument |
| `SwaggerCore.SwaggerApiResourceListing.SetAuthorizationContext` | swagger-springmvc/src/main/java/com/mangofactory/swagger/core/SwaggerApiResourceListing.java:138-140 | only the authorization context changes, to the argument |
| `SwaggerCore.SwaggerApiResourceListing.SetModelProvider` | swagger-springmvc/src/main/java/com/mangofactory/swagger/core/SwaggerApiResourceListing.java:142-144 | only the model provider changes, to the argument |
| `SwaggerCore.SwaggerApiResourceListing.SetApiVersion` | swagger-springmvc/src/main/java/com/mangofactory/swagger/core/SwaggerApiResourceListing.java:146-148 | only the API version changes, to the argument |
| `SwaggerCore.SwaggerApiResourceListing.SetApiListingReferenceOrdering` | swagger-springmvc/src/main/java/com/mangofactory/swagger/core/SwaggerApiResourceListing.java:150-152 | only the reference ordering changes, to the argument |
| `SwaggerCore.SwaggerApiResourceListing.SetApiDescriptionOrdering` | swagger-springmvc/src/main/java/com/mangofactory/swagger/core/SwaggerApiResourceListing.java:154-156 | only the description ordering changes, to the argument |
| `SwaggerCore.SwaggerApiResourceListing.SetCustomAnnotationReaders` | swagger-springmvc/src/main/java/com/mangofactory/swagger/core/SwaggerApiResourceListing.java:158-160 | only the custom readers change, to the argument |
| `SwaggerCore.SwaggerApiResourceListing.SetRequestMappingEvaluator` | swagger-springmvc/src/main/java/com/mangofactory/swagger/core/SwaggerApiResourceListing.java:162-164 | only the request mapping evaluator changes, to the argument |
| `Ordering.SortInPlace` | swagger-springmvc/src/main/java/com/mangofactory/swagger/core/SwaggerApiResourceListing.java:80 | the array ends up holding `StableSort` of its old contents |
| `Ordering.StableSortPermutation` | swagger-springmvc/src/main/java/com/mangofactory/swagger/core/SwaggerApiResourceListing.java:80 | sorting only rearranges: the result has the same multiset of elements |
| `Ordering.StableSortSorted` | swagger-springmvc/src/main/java/com/mangofactory/swagger/core/SwaggerApiResourceListing.java:80 | under a total preorder the result is sorted |
| `Ordering.StableSortStable` | swagger-springmvc/src/main/java/com/mangofactory/swagger/core/SwaggerApiResourceListing.java:80 | under a total preorder, elements that compare equal keep their input order |
| `Ordering.StableSortIdempotent` | swagger-springmvc/src/main/java/com/mangofactory/swagger/core/SwaggerApiResourceListing.java:80 | sorting an already sorted sequence returns it unchanged |
| `Ordering.SortedStableUnique` | swagger-springmvc/src/main/java/com/mangofactory/swagger/core/SwaggerApiResourceListing.java:80 | two sorted sequences whose classes of equal elements agree, in order, are equal |
| `Ordering.StableSortIsTheStableSort` | swagger-springmvc/src/main/java/com/mangofactory/swagger/core/SwaggerApiResourceListing.java:80 | under a total preorder, every sorted, stable rearrangement of the input is `StableSort` of it |

## Left out

- swagger-springmvc/src/main/java/com/mangofactory/springmvc/plugin/DocumentationType.java: it only stores a media type, with `APPLICATION_JSON` as the default. There is no logic in it to verify.
- Logging through SLF4J: the error and summary lines that `scan` logs are returned as a `ScanReport`. Nothing is written anywhere.
- Route enumeration, grouping, parameter expansion, model resolution, authorization lookup and reader vetoes: they belong to `ApiListingReferenceScanner` and `ApiListingScanner`, which are not part of this model. Their results are inputs of `Scan`.
- The bodies of `ResourceListingLexicographicalOrdering`, `ApiDescriptionLexicographicalOrdering` and `DOCUMENTATION_BASE_PATH`: they are not part of this model, so they are opaque constants. The two orderings are only known to be total preorders.
- `Collections.sort` with a comparator that breaks the `Comparator` contract (sign antisymmetry, transitivity): Java may throw `IllegalArgumentException` or produce some other order. The model still returns the insertion sort's result. A comparator whose `compare` is negative for all inputs breaks the contract, yet its `compare(x, y) <= 0` relation is a total preorder. For such an ordering, set through `setApiListingReferenceOrdering`, Java and the model can order the references differently.
- `Collections.sort` sorts the list object returned by the reference scanner's getter. Whether that list belongs to the scanner is not visible here. The model sorts a copy, so any effect on the scanner's own state is not modelled.
- Null for `swaggerGroup`, `apiVersion` and the two orderings: these are modelled as always present. A null ordering would make Java's sort fall back to natural ordering, which references do not have.
- `getAuthorizationTypes`, `getSwaggerPathProvider` and `getSwaggerGlobalSettings` return a field unchanged. In the model the fields are readable directly, so these getters are not separate members.
- Object identity: the authorization list and the API info are put into the resource listing as the same objects. The model has values, so it shows equality and not sharing.
- The reference scanner is a pure function of the handler mappings. A scanner whose getters depend on earlier scans is not modelled.
- `resourceGroupRequestMappings` is a Dafny `map`, so its iteration order is lost. The listing scanner, which is not part of this model, may rely on it.
- The list sorted at line 80 is the same object that becomes `apis` at line 85. The model has values, so this sharing is not shown.
- A null list from `getApiListingReferences()` makes the sort at line 80 throw a `NullPointerException`. The model's reference scan always returns a sequence.
- The Guava and builder classes (`GroupBuilder`, `ResourceListingBuilder`) are replaced by the datatypes they build.
