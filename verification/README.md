# Descriptor composition core, modelled in Dafny

This project models the core of an environment-descriptor library. A
descriptor declares a platform (a base, a distribution and a registry of
components keyed by id) and a set of providers. Other parts of the
descriptor refer to providers by name. Problems found while the
environment is built are collected in a validation accumulator, not
raised.

The model covers:

- **Validation accumulator** (`validation.dfy`, module `Validation`).
  This is an append-only list of `{errorType, message, location}`
  diagnostics. It has `AddError`, `AddWarning`, the `HasErrors` and
  `HasWarnings` scans, the display names of severities, and the constant
  error text.
- **Platform composition** (`platform.dfy`, module `Platforms`).
  - Recording used components (`TagUsedComponent`).
  - Merging another platform into a receiver. For the registry, the first
    entry seen for an id wins and the empty id is skipped. Resolvers are
    appended. The distribution is adopted wholesale only when the
    receiver has no repository url.
  - Resolving the used components (`UsedComponents`). It stops at the
    first failure and keeps one component per id, the last one resolved.
  - Validating every registered component.
- **Providers** (`provider.dfy`, module `Providers`).
  - Building the name-to-provider map from the declarations.
  - Resolving a provider reference against that map, with located errors
    for an empty or unknown name.
  - The accessors of a resolved reference.
- **Qualifiers** (`qualifier.dfy`, module `Qualifiers`). The character
  class of qualifiers and qualified names: ASCII letters, ASCII digits and
  `_`. The accept and reject cases of the repository's tests are proved as
  lemmas.

Supporting modules:

- `Wrappers` holds `Option` and `Result`.
- `Components` holds the component, repository, distribution and base
  records. It keeps only the fields the core reads.
- `MapOrder` holds `Enumerates`, which states that a sequence lists a
  map's keys exactly once.

Go leaves the iteration order of a map unspecified. The model handles
the four map loops of the core as follows:

- `Validate` and `CreateProviders` take the order as an explicit `order`
  parameter, a sequence listing every key exactly once. Properties that
  must not depend on that order are stated for every enumeration.
- `MergeComponents` takes no order. The loop at platform.go:80-86 has the
  same outcome in every order, so the result is a map comprehension.
- `ListValues` picks the next key nondeterministically with `:|`. Its
  contract holds whichever key is picked.

Helpers that platform.go, provider.go and validation.go call but do not
define are passed in as
function parameters:

- `ResolveComponent` is `resolve`.
- `ErrorOnInvalid` is `errorOnInvalid`.
- The accumulator merge used by platform validation is `merge`.
- `createComponent` is `createComponent`. It returns the component and
  the diagnostics it records.
- `createAttributes` is `createAttributes`.

The Go pointer receivers (`merge`, `tagUsedComponent`, `AddError`,
`AddWarning`) become functions that return the updated value. The
constructors that take `*ValidationErrors` return the new accumulator
next to their result.

## Model

| member | source | states |
|---|---|---|
| `Validation.ErrorText` | validation.go:25-27 | The accumulator's error text is the fixed sentence "Validation errors or warnings have occurred", whatever the accumulator holds. |
| `Validation.ErrorTypeString` | validation.go:36-45 | Severity 0 is named "Warning" and severity 1 is named "Error", each exactly then. Every other integer is named "Unknown". |
| `Validation.HasType` | validation.go:48-65 | The in-order scan with early exit returns true iff some diagnostic has the given severity. |
| `Validation.HasErrors` | validation.go:48-55 | True iff some diagnostic has severity Error. |
| `Validation.HasWarnings` | validation.go:58-65 | True iff some diagnostic has severity Warning. |
| `Validation.AddError` | validation.go:67-72 | Appends exactly one diagnostic `(Error, message, loc)` at the end. All earlier diagnostics stay as a prefix, unchanged. |
| `Validation.AddWarning` | validation.go:74-79 | Appends exactly one diagnostic `(Warning, message, loc)` at the end. All earlier diagnostics stay as a prefix, unchanged. |
| `Validation.AddErrorReportsError` | validation.go:48-72 | After an error is added, the accumulator reports errors. |
| `Validation.AddWarningKeepsErrors` | validation.go:48-79 | Adding a warning never changes whether the accumulator reports errors. |
| `Validation.AddWarningReportsWarning` | validation.go:58-79 | After a warning is added, the accumulator reports warnings. |
| `Validation.AddErrorKeepsWarnings` | validation.go:58-72 | Adding an error never changes whether the accumulator reports warnings. |
| `Platforms.TagUsedComponent` | platform.go:50-52 | Adds exactly one resolver, at the end. Earlier resolvers and every other field are unchanged. |
| `Platforms.TagAll` | platform.go:88-90 | Tagging the resolvers one at a time yields the old list followed by the new one, in order. Nothing else changes. |
| `Platforms.MergeComponents` | platform.go:80-86 | The merged key set is the receiver's keys plus every non-empty key of the other map. An entry the receiver had is never replaced. An entry it lacked comes from the other map. |
| `Platforms.MergeDistribution` | platform.go:92-94 | The other distribution is taken whole exactly when the receiver has no repository url and the other has one. In every other case, including neither having a url, the receiver's is kept. The result has a url iff either input has one. |
| `Platforms.Merge` | platform.go:79-96 | Merging never fails and keeps the base. The registry is merged first-seen-wins, and an empty id from the other platform is never added. Resolvers are the receiver's followed by the other's, so the length is the sum. The other distribution is adopted exactly when the receiver's has no url and the other's has one. |
| `Platforms.MergeSelf` | platform.go:79-96 | A self-merge keeps components and distribution but doubles the resolver list. So when resolvers exist, the merge is not idempotent. |
| `Platforms.MergeNothing` | platform.go:79-96 | Merging a platform that has no component under a non-empty id, no resolver and no distribution url changes nothing. |
| `Platforms.MergeAssociative` | platform.go:79-96 | `(a merge b) merge c` equals `a merge (b merge c)`, so a chain of layers composes the same however the merges are nested. |
| `Platforms.ResolvedByIdKeys` | platform.go:58-64 | The map built by resolving in order is keyed by exactly the resolved ids. |
| `Platforms.ResolvedByIdLastWins` | platform.go:58-64 | Under each id, the map built by resolving in order holds a component with that id. It is the one from the last resolver that resolves to that id. |
| `Platforms.ResolveInOrder` | platform.go:58-64 | Without a failure, it returns the map built in order. Otherwise it returns the error of the first failing resolver, and every earlier resolver succeeded. |
| `Platforms.ListValues` | platform.go:65-67 | Lists the values of an id-keyed map, each exactly once: ids are distinct and they cover the key set. |
| `Platforms.UsedComponents` | platform.go:55-69 | Returns the first failing resolver's error, with an empty list. On success, ids in the result are distinct and equal the set of resolved ids. Each result is the last component resolved with its id. |
| `Platforms.Validate` | platform.go:71-77 | Folds each registered component's diagnostics into a fresh accumulator. An empty registry yields no diagnostics. |
| `Platforms.ValidateReportsAnyInvalidComponent` | platform.go:71-77 | With concatenation as the merge, the result reports a severity iff some registered component's own validation does, for every visiting order. |
| `Providers.BuildProviders` | provider.go:45-55 | Each visited declaration gets a provider under its name. The component's diagnostics are appended in visiting order after the existing ones. |
| `Providers.CreateProviders` | provider.go:40-58 | With no declarations, the map is empty and exactly one Error "no provider specified" at "providers" is appended. Otherwise the key set equals the declarations. Each provider has its key as name and `env` as root, and its component is built at "providers.<name>". Earlier diagnostics are kept as a prefix. |
| `Providers.ComponentDiagnosticsFrom` | provider.go:52 | Every diagnostic gathered while building providers was recorded by building some declared provider's component. |
| `Providers.CreateProvidersDiagnosticsFromComponents` | provider.go:42-56 | With at least one declaration, every diagnostic appended by provider creation comes from building some declared provider's component. So "no provider specified" is not added by the constructor itself. |
| `Providers.CreateProviderRef` | provider.go:61-72 | An empty name returns the zero reference and appends one Error at `location`. A non-empty unknown name returns the zero reference and appends one Error "unknown provider reference: <name>" at `location.name`. A known name appends nothing and returns that provider, with parameters built over the provider's own. |
| `Providers.ProviderName` | provider.go:25-27 | A resolved reference's provider name is the name of the provider it points to; `CreateProviderRefResolves` ties it to the declared provider. |
| `Providers.ComponentId` | provider.go:30-32 | A resolved reference's component id is the id of its provider's component; `CreateProviderRefResolves` ties it to the declared provider. |
| `Providers.ProviderComponent` | provider.go:35-37 | A resolved reference's component is its provider's component; `CreateProviderRefResolves` ties it to the declared provider. |
| `Providers.CreateProviderRefResolves` | provider.go:25-72 | A reference resolves iff its name is non-empty and declared. A resolved reference's name, component id and component are those of the declared provider. An unresolved one added exactly one Error. Earlier diagnostics are never touched. |
| `Providers.CreateProviderRefReportsError` | provider.go:61-72 | After resolution, the accumulator reports an error iff it already did or the reference failed to resolve. |
| `Providers.CreateProviderRefNameRoundTrip` | provider.go:46-66 | Against providers keyed by their own names, as provider creation builds them, a resolved reference's provider name is the name it was written with. |
| `Qualifiers.IsAValidQualifier` | qualified_name_test.go:9-23 | Stands in for the Go body: a qualifier is a non-empty string of ASCII letters, ASCII digits and `_`. The test-case lemmas below are proved from it. |
| `Qualifiers.ValidQualifiedName` | qualified_name_test.go:25-62 | Stands in for the Go body: a qualified name is valid when both its name and its qualifier are valid qualifiers. |
| `Qualifiers.MatchQualifier` | qualified_name_test.go:9-23 | The character-by-character matcher accepts a string iff it is a valid qualifier: non-empty, and only letters, digits and `_`. |
| `Qualifiers.OneBadCharRejects` | qualified_name_test.go:22 | A single character outside the class rejects the whole string. |
| `Qualifiers.JoinedQualifiersValid` | qualified_name_test.go:10-20 | Two valid qualifiers joined by `_` form a valid qualifier, as in the mixed cases the tests accept. |
| `Qualifiers.AcceptedQualifiers` | qualified_name_test.go:10-20 | "aa_bb", "AA_BB", "11_22", "aaAA11_aaBB11", "aa_BB", "aa_11", "11_bb" and "11_BB" are valid qualifiers. |
| `Qualifiers.DashRejected` | qualified_name_test.go:22 | "a-b" is not a valid qualifier. |
| `Qualifiers.AcceptedQualifiedNames` | qualified_name_test.go:26-34 | An upper-case alphabet name with a lower-case alphabet qualifier is a valid qualified name. So are digits with digits. |
| `Qualifiers.AccentedNamesRejected` | qualified_name_test.go:36-49 | A name that is a single à, é, ù, è or ç makes the qualified name invalid. |
| `Qualifiers.PunctuationNamesRejected` | qualified_name_test.go:51-61 | A name that is a single `!`, `-`, `&` or `#` makes the qualified name invalid. |

## Left out

- `createPlatform` (platform.go:15-48) is not modelled. It only wires together builders that are not part of this model: `CreateComponentBase`, `CreateDistribution`, `CreateRepository`, `setAuthentication` and `CreateComponent`.
- `JSonContent` and `Log` (validation.go:31-34, 81-85) are not modelled. They are JSON serialisation and logger output.
- The bodies of `ResolveComponent`, `ErrorOnInvalid`, the accumulator merge, `createComponent` and `createAttributes` are not part of this model. They are function parameters. Apart from the typing of `createComponent` (next line), no property of their internals is assumed. The one other exception is `ValidateReportsAnyInvalidComponent`, which takes concatenation as the merge.
- `Providers.CreateProviders` assumes that `createComponent` only appends diagnostics. It also assumes that its component and diagnostics do not depend on what the accumulator already holds. Go passes it the accumulator pointer itself (provider.go:52). The model instead gives it no accumulator and appends the diagnostics it returns. The reason is that the helper is expected to record only through `AddError`. `Extends(out, ve)`, the `|yaml| > 0` equation of `CreateProviders`, and `CreateProvidersDiagnosticsFromComponents` all rest on this assumption.
- `Platforms.Validate`: with an opaque merge, the contract says only that an empty registry yields no diagnostics. The order-independent statement is made for concatenation only.
- Go map iteration order is not modelled as such. `Validate` and `CreateProviders` take it as an `order` parameter. `MergeComponents` does not depend on it. `ListValues` picks keys nondeterministically, so `UsedComponents` promises no order for its result.
- Pointers are not modelled as pointers. The provider's environment pointer becomes an `EnvironmentRef` id. A reference's provider pointer becomes an `Option<Provider>`. The source takes the address of a copy of the map entry, so a value copy loses no aliasing. `None` is the nil pointer of the zero reference.
- `ProviderName`, `ComponentId` and `ProviderComponent` require a resolved reference. The Go accessors dereference a nil pointer otherwise. They are plain projections; their properties are stated by `CreateProviderRefResolves`.
- `Platforms.Merge` treats the receiver's registry as an allocated map. In the source, writing a new id into a nil registry would panic. `createPlatform` allocates the registry on every successful return (platform.go:45); its error returns leave it nil, and a merge into such a platform panics in the source, which the model does not reproduce.
- A nil declaration map and an empty one are the same value here. The source tests both and treats them alike.
- `ErrorType` is an unbounded integer. The 64-bit width of Go's `int` never matters to the range check in `String`.
- The `Component`, `Repository`, `Distribution` and `Base` records keep only the fields the core reads. Their declarations are not part of this model.
- The Go bodies of `IsAValidQualifier`, `QualifiedName` and `ValidQualifiedName` are not part of this model. The character-class definitions `Qualifiers.IsAValidQualifier` and `Qualifiers.ValidQualifiedName` stand in for them, because the tests fix only the character class. Two points are modelling choices that no lemma relies on. First, the empty string is treated as invalid. Second, a qualified name is taken as a (name, qualifier) pair whose two parts must both be valid; how the two are joined into one string is not modelled.
- Provider merge/customize, override containers and lazy component references do not appear in platform.go, provider.go or validation.go. They are not modelled.
- The empty-providers diagnostic is recorded with `AddError` (provider.go:43), so it is an Error. `Platform.merge` has no failure path; it always returns nil (platform.go:95).
