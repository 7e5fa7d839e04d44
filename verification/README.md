# OCM SDK token lifecycle and Cluster type, in Dafny

This project models three pieces of the OpenShift Cluster Manager Go SDK that
the `rosa` command line tool vendors, and proves properties of each model.

* **The authentication transport wrapper** (`authentication/transport_wrapper.go`).
  - `Build` validates the configuration and classifies pre-supplied JWTs by
    their `typ` claim.
  - `GetTokenExpiry` reads the `exp` claim (section 4.1.4 of RFC 7519).
  - `tokens` picks one of six outcomes in priority order.
  - The token endpoint is posted one of three grants:
    - the password grant (section 4.3 of RFC 6749);
    - the client credentials grant (section 4.4 of RFC 6749);
    - the refresh grant (section 6 of RFC 6749).
  - A refresh rejected with `invalid_grant` (section 5.2 of RFC 6749) falls
    back to the credentials.
  - `Tokens` retries only failures answered with a server error.
  - The round tripper adds the `Authorization` header.

  Modules `Jwt`, `Credentials`, `Endpoint`, `Lifecycle` and `AuthTransport`
  cover these. The token endpoint is a script of replies, consumed one reply
  per request. Time is in whole seconds.
* **The `Cluster` type and `ClusterList`** (`clustersmgmt/v1/cluster_type.go`),
  in module `ClusterType`.
  - A `uint64` presence bitmap guards every optional attribute. The model keeps
    the bitmap as the set of its one-bits: bit 0 (mask 1) is the link flag, and
    bits 1 to 42 are the attributes `id` to `version`, in declaration order.
  - The Go zero value of an attribute whose bit is clear is `Zero`.
  - A nil pointer is `None`.
* **The JSON writer and reader of `Cluster`** (`clustersmgmt/v1/cluster_type_json.go`),
  in modules `ClusterJson` and `ClusterRoundTrip`.
  - JSON is a sequence of tokens at the level of the jsoniter stream and
    iterator calls the generated code makes: object start and end, member
    name, comma, string, boolean, number and null.
  - Referenced objects, lists and timestamps are single opaque tokens, written
    and read by code that is not part of this model.
  - `Write` follows `writeCluster`. `ReadFields` follows the loop of
    `readCluster`. `Decode` follows `UnmarshalCluster`.

`Text` holds the standard-library string helpers the code uses (`strings.Join`,
`strings.EqualFold`, the order of `sort.Strings`). `Results` holds `Option` and
`Result`.

The generated reader treats an empty member name as the end of the object,
because jsoniter's `ReadObject` returns `""` in both cases. The model reads JSON
in two ways, chosen by a `KeyMode`:
* `AsWritten` is that generated behaviour. `UnmarshalAsWritten` uses it.
* `Distinguishing` tells the end of the object from an empty name. `Unmarshal`
  uses it.

See "Findings".

## Model

| member | source | states |
|---|---|---|
| Text.Join | vendor/github.com/openshift-online/ocm-sdk-go/authentication/transport_wrapper.go:777 | the scope is the scopes joined by the separator: nothing for no scopes, the single scope itself for one |
| Text.JoinSnoc | vendor/github.com/openshift-online/ocm-sdk-go/authentication/transport_wrapper.go:777 | adding a scope appends exactly one separator and the scope to the joined text |
| Text.JoinLength | vendor/github.com/openshift-online/ocm-sdk-go/authentication/transport_wrapper.go:777 | the joined text has the total length of the scopes plus one separator between each pair of neighbours |
| Text.EqualFoldWords | vendor/github.com/openshift-online/ocm-sdk-go/authentication/transport_wrapper.go:363-372 | two all-letter words are equal under case folding only when they agree letter by letter ignoring case |
| Text.LessIrreflexive | vendor/github.com/openshift-online/ocm-sdk-go/clustersmgmt/v1/cluster_type_json.go:388 | no key sorts before itself |
| Text.LessTransitive | vendor/github.com/openshift-online/ocm-sdk-go/clustersmgmt/v1/cluster_type_json.go:388 | the sort order of `sort.Strings` is transitive |
| Text.LessTotal | vendor/github.com/openshift-online/ocm-sdk-go/clustersmgmt/v1/cluster_type_json.go:388 | any two different keys are ordered one way or the other |
| Text.LeastExists | vendor/github.com/openshift-online/ocm-sdk-go/clustersmgmt/v1/cluster_type_json.go:388 | every non-empty set of keys has a least key |
| Text.LeastUnique | vendor/github.com/openshift-online/ocm-sdk-go/clustersmgmt/v1/cluster_type_json.go:388 | the least key is unique |
| Text.SortedKeys | vendor/github.com/openshift-online/ocm-sdk-go/clustersmgmt/v1/cluster_type_json.go:381-388 | the keys of the properties map, each exactly once, in strictly ascending order |
| Text.SortedDistinct | vendor/github.com/openshift-online/ocm-sdk-go/clustersmgmt/v1/cluster_type_json.go:388-396 | a strictly sorted key list has no repeated key, so no property member is written twice |
| Jwt.Parse | vendor/github.com/openshift-online/ocm-sdk-go/authentication/transport_wrapper.go:343-347 | parsing succeeds exactly for decodable text, and the token keeps its raw text and its claims |
| Jwt.GetTokenExpiry | vendor/github.com/openshift-online/ocm-sdk-go/authentication/transport_wrapper.go:977-1001 | an `exp` claim that is not a number is an error; otherwise a missing or zero `exp` means "never expires, nothing left", and any other `exp` means "expires" with `exp - now` left |
| Jwt.FreshIffExpLater | vendor/github.com/openshift-online/ocm-sdk-go/authentication/transport_wrapper.go:993-999 | a token is fresh for a window exactly when it never expires or its `exp` is at least `now + window` |
| Jwt.FreshAntitone | vendor/github.com/openshift-online/ocm-sdk-go/authentication/transport_wrapper.go:993-999 | a token fresh at some time for some window is fresh at every earlier time for every smaller window |
| Credentials.HavePassword | vendor/github.com/openshift-online/ocm-sdk-go/authentication/transport_wrapper.go:950-952 | the password grant is possible exactly when both the user and the password are non-empty |
| Credentials.HaveSecret | vendor/github.com/openshift-online/ocm-sdk-go/authentication/transport_wrapper.go:954-956 | the client credentials grant is possible exactly when both the client id and the client secret are non-empty |
| Credentials.HaveCredentials | vendor/github.com/openshift-online/ocm-sdk-go/authentication/transport_wrapper.go:946-948 | a new pair can be requested without any token exactly when one of the two grants is possible |
| Credentials.CurrentTokens | vendor/github.com/openshift-online/ocm-sdk-go/authentication/transport_wrapper.go:747-755 | the raw text of each token of the current pair, and the empty string for a missing one |
| Credentials.KindOf | vendor/github.com/openshift-online/ocm-sdk-go/authentication/transport_wrapper.go:341-373 | an undecodable token is reported as such; a decoded token whose `typ` is text goes to the access slot exactly when `typ` is `Bearer`, to the refresh slot exactly when it is `Refresh` or `Offline` (in any letter case), and is an unknown type otherwise; a missing `typ` and a non-text `typ` are their own errors |
| Credentials.OfflineIsRefresh | vendor/github.com/openshift-online/ocm-sdk-go/authentication/transport_wrapper.go:368-369 | a token whose `typ` is `Offline` in any letter case goes to the refresh slot |
| Credentials.LastInSnoc | vendor/github.com/openshift-online/ocm-sdk-go/authentication/transport_wrapper.go:364-369 | a classified token added to the list replaces its own slot and leaves the other slot unchanged |
| Credentials.ClassifyTokens | vendor/github.com/openshift-online/ocm-sdk-go/authentication/transport_wrapper.go:338-374 | classification succeeds exactly when every token has a known `typ`; each slot then holds the last token of that kind; otherwise the error names the first bad token and what is wrong with it |
| Credentials.Build | vendor/github.com/openshift-online/ocm-sdk-go/authentication/transport_wrapper.go:318-500 | a missing logger fails first; then no token, no user and password, and no client id and secret fails; then token errors; on success the defaults are filled in and the classified pair is stored |
| Endpoint.CheckResponse | vendor/github.com/openshift-online/ocm-sdk-go/authentication/transport_wrapper.go:904-935 | a response yields a token pair exactly when it passes all checks; otherwise the first failing check decides the error, in the order error field, status, token type, access token, refresh token |
| Endpoint.SendTokenForm | vendor/github.com/openshift-online/ocm-sdk-go/authentication/transport_wrapper.go:821-942 | one request is recorded with its status code; the pair is replaced exactly when the reply passes every check, and is unchanged on any error |
| Endpoint.SelectGrant | vendor/github.com/openshift-online/ocm-sdk-go/authentication/transport_wrapper.go:757-777 | the password grant when user and password are set; otherwise client credentials when id and secret are set; otherwise none; the scope is the scopes joined by one space |
| Endpoint.SendRequestTokenForm | vendor/github.com/openshift-online/ocm-sdk-go/authentication/transport_wrapper.go:757-778 | without credentials nothing is sent and the call fails; with credentials the selected grant is sent |
| Endpoint.SendRefreshTokenForm | vendor/github.com/openshift-online/ocm-sdk-go/authentication/transport_wrapper.go:781-819 | the refresh grant with the client id, secret and stored refresh token, falling back to one credential grant on `invalid_grant`; its contract is given by `Endpoint.RefreshFallback` and `Endpoint.RefreshFailureKeepsPair` |
| Endpoint.RefreshFallback | vendor/github.com/openshift-online/ocm-sdk-go/authentication/transport_wrapper.go:781-818 | the refresh grant goes first; one credential grant follows exactly when the reply is `invalid_grant` and credentials exist, and its outcome is returned; otherwise the refresh outcome is returned unchanged |
| Endpoint.RefreshFailureKeepsPair | vendor/github.com/openshift-online/ocm-sdk-go/authentication/transport_wrapper.go:781-818 | a failed refresh leaves the stored token pair as it was |
| Lifecycle.ExpiryOf | vendor/github.com/openshift-online/ocm-sdk-go/authentication/transport_wrapper.go:648-665 | a missing token reads as "never expires, nothing left"; a present token gets its own expiry |
| Lifecycle.Choose | vendor/github.com/openshift-online/ocm-sdk-go/authentication/transport_wrapper.go:672-741 | each of the five outcomes is chosen exactly when its own condition holds and the conditions of all earlier outcomes fail |
| Lifecycle.GiveUpIffNothingUsable | vendor/github.com/openshift-online/ocm-sdk-go/authentication/transport_wrapper.go:735-741 | `tokens` gives up exactly when neither token is present with time left and there are no credentials |
| Lifecycle.TokensAttempt | vendor/github.com/openshift-online/ocm-sdk-go/authentication/transport_wrapper.go:640-745 | an expiry that cannot be read fails before anything is sent; an error returns empty texts and leaves the wrapper unchanged; success returns the current pair; only the token pair can change; at most two requests are sent |
| Lifecycle.AttemptFollowsChoice | vendor/github.com/openshift-online/ocm-sdk-go/authentication/transport_wrapper.go:672-741 | the decision determines what is sent: nothing when a current token is used (which is returned) or when nothing is left to try (which fails), the refresh form first when refreshing, and exactly the form of the configured credentials when requesting a new pair; after a refresh or a request, the attempt's status code, error, stored pair, requests and remaining replies are the grant's, and on success it returns the texts of the pair the grant stored |
| Lifecycle.FreshAccessNeedsNoRequest | vendor/github.com/openshift-online/ocm-sdk-go/authentication/transport_wrapper.go:672-677 | a fresh access token is returned with its refresh token, and no request is sent |
| Lifecycle.StaleAccessFreshRefresh | vendor/github.com/openshift-online/ocm-sdk-go/authentication/transport_wrapper.go:679-690 | a stale access token and a fresh refresh token lead to one refresh request, whose new pair is both stored and returned |
| Lifecycle.NothingConfiguredFails | vendor/github.com/openshift-online/ocm-sdk-go/authentication/transport_wrapper.go:735-741 | with no tokens and no credentials the attempt fails at once and sends nothing |
| Lifecycle.Observe | vendor/github.com/openshift-online/ocm-sdk-go/authentication/transport_wrapper.go:828-840 | each request sent is recorded once, with the attempt number and its status code |
| Lifecycle.Retryable | vendor/github.com/openshift-online/ocm-sdk-go/authentication/transport_wrapper.go:611-624 | a failed attempt is retried exactly when its status code is 500 or more; any other code, including zero for no response, is permanent |
| Lifecycle.Retry | vendor/github.com/openshift-online/ocm-sdk-go/authentication/transport_wrapper.go:599-634 | retrying stops at success, at a failure that is not a server error, or when the attempt budget runs out; a final error returns empty texts and the unchanged wrapper |
| Lifecycle.RetryStops | vendor/github.com/openshift-online/ocm-sdk-go/authentication/transport_wrapper.go:605-636 | a successful attempt ends the loop with its own pair, wrapper and code; any failure other than a server error with budget left is final, with that attempt's error |
| Lifecycle.RetryContinues | vendor/github.com/openshift-online/ocm-sdk-go/authentication/transport_wrapper.go:605-636 | a server error with budget left is retried from the next attempt number on the remaining replies and at the clock's next reading; the outcome is the retry's, after this attempt's requests are recorded |
| Lifecycle.ExpiresIn | vendor/github.com/openshift-online/ocm-sdk-go/authentication/transport_wrapper.go:589-592 | the freshness window is the one value the caller gives, and one minute when the caller gives none or more than one |
| Lifecycle.Tokens | vendor/github.com/openshift-online/ocm-sdk-go/authentication/transport_wrapper.go:587-638 | between one and `budget + 1` attempts; a failure is returned only when it is not a server error or the budget is spent, with empty texts and the stored pair untouched; a success returns the pair it stored; `Lifecycle.RetryStops`, `Lifecycle.RetryContinues` and `Lifecycle.PermanentFailureStops` give the step-by-step behaviour |
| Lifecycle.PermanentFailureStops | vendor/github.com/openshift-online/ocm-sdk-go/authentication/transport_wrapper.go:611-624 | a failure whose code is below 500, including no response, ends `Tokens` after the first attempt with that error |
| Lifecycle.RetryUntilGranted | vendor/github.com/openshift-online/ocm-sdk-go/authentication/transport_wrapper.go:599-634 | any number of 503 replies followed by a good one, within the budget: success on the attempt after the last 503, with the rejected attempts recorded in order before the successful one and the new pair stored |
| Lifecycle.RetriesServerErrors | vendor/github.com/openshift-online/ocm-sdk-go/authentication/transport_wrapper.go:599-634 | three 503 replies and then a good one: success on attempt four, every attempt recorded with its code, and the new pair stored |
| AuthTransport.Authorize | vendor/github.com/openshift-online/ocm-sdk-go/authentication/transport_wrapper.go:557-579 | a token failure stops the request before the wrapped transport; otherwise the `Authorization` header is `Bearer <token>` when there is a token, and no other header changes |
| ClusterType.Index | vendor/github.com/openshift-online/ocm-sdk-go/clustersmgmt/v1/cluster_type.go:78-120 | every attribute owns one bit between 1 and 42 |
| ClusterType.AttrAtIndex | vendor/github.com/openshift-online/ocm-sdk-go/clustersmgmt/v1/cluster_type.go:140-1136 | an attribute's bit leads back to the attribute |
| ClusterType.IndexAttrAt | vendor/github.com/openshift-online/ocm-sdk-go/clustersmgmt/v1/cluster_type.go:140-1136 | every bit from 1 to 42 belongs to an attribute |
| ClusterType.DistinctBits | vendor/github.com/openshift-online/ocm-sdk-go/clustersmgmt/v1/cluster_type.go:128-150 | no attribute uses the link bit, and different attributes use different bits |
| ClusterType.Zero | vendor/github.com/openshift-online/ocm-sdk-go/clustersmgmt/v1/cluster_type.go:140-145 | the value an accessor returns for an absent attribute has the attribute's type |
| ClusterType.Get | vendor/github.com/openshift-online/ocm-sdk-go/clustersmgmt/v1/cluster_type.go:140-155 | `ok` holds exactly when the object is non-nil and the attribute's bit is set; the value is then the stored one, and otherwise the zero value |
| ClusterType.Kind | vendor/github.com/openshift-online/ocm-sdk-go/clustersmgmt/v1/cluster_type.go:124-132 | `ClusterNil` exactly for nil, `ClusterLink` exactly for a link, `Cluster` exactly for a non-nil non-link |
| ClusterType.EmptyIffNoAttribute | vendor/github.com/openshift-online/ocm-sdk-go/clustersmgmt/v1/cluster_type.go:176-178 | an object is empty exactly when no attribute accessor reports a value; the link bit alone leaves it empty |
| ClusterType.Store | vendor/github.com/openshift-online/ocm-sdk-go/clustersmgmt/v1/cluster_type_json.go:498-500 | setting an attribute adds exactly its bit to the bitmap |
| ClusterType.GetStored | vendor/github.com/openshift-online/ocm-sdk-go/clustersmgmt/v1/cluster_type_json.go:498-500 | after setting an attribute its accessor reports the value |
| ClusterType.GetUnstored | vendor/github.com/openshift-online/ocm-sdk-go/clustersmgmt/v1/cluster_type_json.go:498-786 | setting an attribute changes no other accessor and not the link flag |
| ClusterType.StoreTwice | vendor/github.com/openshift-online/ocm-sdk-go/clustersmgmt/v1/cluster_type_json.go:498-786 | setting an attribute twice is the same as setting it once to the second value |
| ClusterType.ListKind | vendor/github.com/openshift-online/ocm-sdk-go/clustersmgmt/v1/cluster_type.go:1158-1166 | `ClusterListNil` exactly for nil, `ClusterListLink` exactly for a link, `ClusterList` exactly for a non-nil non-link |
| ClusterType.ListHREF | vendor/github.com/openshift-online/ocm-sdk-go/clustersmgmt/v1/cluster_type.go:1174-1189 | `ok` holds exactly for a non-nil list with a non-empty href; the value is the href, or empty for nil |
| ClusterType.Len | vendor/github.com/openshift-online/ocm-sdk-go/clustersmgmt/v1/cluster_type.go:1192-1197 | zero for nil, otherwise the number of items |
| ClusterType.ListEmptyIffNoLength | vendor/github.com/openshift-online/ocm-sdk-go/clustersmgmt/v1/cluster_type.go:1200-1202 | a list is empty exactly when its length is zero |
| ClusterType.ListGet | vendor/github.com/openshift-online/ocm-sdk-go/clustersmgmt/v1/cluster_type.go:1206-1211 | nil for a nil list or an index outside the items, otherwise the item at that index |
| ClusterType.Slice | vendor/github.com/openshift-online/ocm-sdk-go/clustersmgmt/v1/cluster_type.go:1219-1228 | a copy with as many elements as the list, each equal to what `Get` returns at that index |
| ClusterType.Range | vendor/github.com/openshift-online/ocm-sdk-go/clustersmgmt/v1/cluster_type.go:1247-1256 | nothing is visited for nil; otherwise the items are visited in order, and the visit stops right after the first call that returns false |
| ClusterType.Each | vendor/github.com/openshift-online/ocm-sdk-go/clustersmgmt/v1/cluster_type.go:1233-1242 | the same early-exit visit, with a callback that does not see the index |
| ClusterJson.JsonName | vendor/github.com/openshift-online/ocm-sdk-go/clustersmgmt/v1/cluster_type_json.go:51-465 | no attribute is written under an empty name or under `kind` |
| ClusterJson.AttrNamedJsonName | vendor/github.com/openshift-online/ocm-sdk-go/clustersmgmt/v1/cluster_type_json.go:498-781 | the reader recognises each name the writer uses as the same attribute |
| ClusterJson.AttrsFromContents | vendor/github.com/openshift-online/ocm-sdk-go/clustersmgmt/v1/cluster_type_json.go:51-465 | the attributes from a given bit on, each once, in increasing bit order |
| ClusterJson.AllAttrsInOrder | vendor/github.com/openshift-online/ocm-sdk-go/clustersmgmt/v1/cluster_type_json.go:51-465 | the writer considers every attribute, in increasing bit order |
| ClusterJson.KindName | vendor/github.com/openshift-online/ocm-sdk-go/clustersmgmt/v1/cluster_type_json.go:44-50 | the `kind` written is `ClusterLink` exactly for a link, otherwise `Cluster` |
| ClusterJson.Emitted | vendor/github.com/openshift-online/ocm-sdk-go/clustersmgmt/v1/cluster_type_json.go:51-465 | the attributes written from a list are those with their bit set and, for references and lists, a non-nil value; the order is kept |
| ClusterJson.Members | vendor/github.com/openshift-online/ocm-sdk-go/clustersmgmt/v1/cluster_type_json.go:51-465 | an attribute is written exactly when its bit is set and its value is not nil, in increasing bit order |
| ClusterJson.Write | vendor/github.com/openshift-online/ocm-sdk-go/clustersmgmt/v1/cluster_type_json.go:41-467 | the output is an object whose first member is `kind`, with value `ClusterLink` exactly for a link |
| ClusterJson.ReadObject | vendor/github.com/openshift-online/ocm-sdk-go/clustersmgmt/v1/cluster_type_json.go:488-491 | an opening brace or comma followed by a name enters that member; a closing brace or null ends the object |
| ClusterJson.ReadString | vendor/github.com/openshift-online/ocm-sdk-go/clustersmgmt/v1/cluster_type_json.go:499 | a string token gives its text and null gives the empty string; anything else is an error |
| ClusterJson.ReadBool | vendor/github.com/openshift-online/ocm-sdk-go/clustersmgmt/v1/cluster_type_json.go:591-594 | only a boolean token is accepted, and it gives its value |
| ClusterJson.ReadInt | vendor/github.com/openshift-online/ocm-sdk-go/clustersmgmt/v1/cluster_type_json.go:683-686 | only a number within the 64-bit range is accepted, and it gives its value |
| ClusterJson.ReadNested | vendor/github.com/openshift-online/ocm-sdk-go/clustersmgmt/v1/cluster_type_json.go:505-511 | a referenced object, list or timestamp is read as one non-nil value of the attribute's type, and the reader moves past it |
| ClusterJson.Skip | vendor/github.com/openshift-online/ocm-sdk-go/clustersmgmt/v1/cluster_type_json.go:785-786 | an unknown member's value is dropped from the front of the input: a scalar is one token, a separator or closing token is an error, and an object or array is consumed up to its matching close |
| ClusterJson.SkipFlatValue | vendor/github.com/openshift-online/ocm-sdk-go/clustersmgmt/v1/cluster_type_json.go:785-786 | an object or array holding no nested object or array is skipped as a whole, and reading resumes right after it |
| ClusterJson.ReadProperties | vendor/github.com/openshift-online/ocm-sdk-go/clustersmgmt/v1/cluster_type_json.go:744-755 | reading the properties object only adds keys to the map |
| ClusterJson.ReadValue | vendor/github.com/openshift-online/ocm-sdk-go/clustersmgmt/v1/cluster_type_json.go:498-781 | a value read for an attribute has the attribute's type and is not nil |
| ClusterJson.ReadFields | vendor/github.com/openshift-online/ocm-sdk-go/clustersmgmt/v1/cluster_type_json.go:485-790 | reading never clears a bit, and keeps the object well typed with no bit outside the link and attribute bits |
| ClusterJson.Read | vendor/github.com/openshift-online/ocm-sdk-go/clustersmgmt/v1/cluster_type_json.go:485-790 | a cluster that was read is well typed and uses only the link and attribute bits |
| ClusterJson.Decode | vendor/github.com/openshift-online/ocm-sdk-go/clustersmgmt/v1/cluster_type_json.go:471-482 | no body gives a nil cluster and no error; an unopenable source is an error; a document gives the cluster read from it or the reader's error |
| ClusterJson.UnmarshalAsWritten | vendor/github.com/openshift-online/ocm-sdk-go/clustersmgmt/v1/cluster_type_json.go:472-474 | `http.NoBody` gives a nil cluster and no error |
| ClusterJson.Unmarshal | vendor/github.com/openshift-online/ocm-sdk-go/clustersmgmt/v1/cluster_type_json.go:472-474 | `http.NoBody` gives a nil cluster and no error |
| ClusterRoundTrip.OverlayContents | vendor/github.com/openshift-online/ocm-sdk-go/clustersmgmt/v1/cluster_type_json.go:745-752 | storing property entries in order keeps the earlier keys and gives each stored key its entry |
| ClusterRoundTrip.ReadEntries | vendor/github.com/openshift-online/ocm-sdk-go/clustersmgmt/v1/cluster_type_json.go:745-752 | reading the entries the writer emits stores each key's value, in order |
| ClusterRoundTrip.PropertiesRoundTrip | vendor/github.com/openshift-online/ocm-sdk-go/clustersmgmt/v1/cluster_type_json.go:380-397 | a written properties map reads back as the same map; the generated reader needs the map to have no empty key |
| ClusterRoundTrip.ValueRoundTrip | vendor/github.com/openshift-online/ocm-sdk-go/clustersmgmt/v1/cluster_type_json.go:51-465 | a written string, enumeration, boolean, integer or properties value reads back as itself |
| ClusterRoundTrip.StoreAllContents | vendor/github.com/openshift-online/ocm-sdk-go/clustersmgmt/v1/cluster_type_json.go:498-786 | storing a list of attributes sets exactly their bits and takes exactly their values |
| ClusterRoundTrip.ReadMembers | vendor/github.com/openshift-online/ocm-sdk-go/clustersmgmt/v1/cluster_type_json.go:486-789 | reading the members the writer emits stores each of their values in turn |
| ClusterRoundTrip.KindMember | vendor/github.com/openshift-online/ocm-sdk-go/clustersmgmt/v1/cluster_type_json.go:493-497 | `kind` sets the link bit exactly when its value is `ClusterLink`, and otherwise changes nothing |
| ClusterRoundTrip.KnownMember | vendor/github.com/openshift-online/ocm-sdk-go/clustersmgmt/v1/cluster_type_json.go:498-781 | a recognised member stores the value read for it, setting exactly its own bit |
| ClusterRoundTrip.UnknownMember | vendor/github.com/openshift-online/ocm-sdk-go/clustersmgmt/v1/cluster_type_json.go:785-786 | an unknown member is skipped and changes nothing |
| ClusterRoundTrip.RepeatedMember | vendor/github.com/openshift-online/ocm-sdk-go/clustersmgmt/v1/cluster_type_json.go:498-786 | when a member is repeated, the last occurrence wins |
| ClusterRoundTrip.RepeatedProperties | vendor/github.com/openshift-online/ocm-sdk-go/clustersmgmt/v1/cluster_type_json.go:744-755 | a second properties object replaces the whole map, whatever the first one held; with the generated reader this needs both maps free of the empty key |
| ClusterRoundTrip.Start | vendor/github.com/openshift-online/ocm-sdk-go/clustersmgmt/v1/cluster_type_json.go:493-497 | after `kind` the object holds the link bit when the original had it, and nothing else |
| ClusterRoundTrip.ReadWritten | vendor/github.com/openshift-online/ocm-sdk-go/clustersmgmt/v1/cluster_type_json.go:485-790 | reading the writer's output consumes it entirely, and stores every written member onto the link flag |
| ClusterRoundTrip.RoundTrip | vendor/github.com/openshift-online/ocm-sdk-go/clustersmgmt/v1/cluster_type_json.go:41-482 | unmarshalling the written cluster succeeds with the same bitmap and the same accessor results, for clusters whose set attributes are strings, enumerations, booleans, integers and properties |
| ClusterRoundTrip.RoundTripCorrected | vendor/github.com/openshift-online/ocm-sdk-go/clustersmgmt/v1/cluster_type_json.go:41-482 | the same round trip through the reader that tells the end of an object from an empty name, with no restriction on property keys |
| ClusterRoundTrip.NilFieldUnwritten | vendor/github.com/openshift-online/ocm-sdk-go/clustersmgmt/v1/cluster_type_json.go:374-376 | clearing the bit of a nil properties map or nil reference does not change the writer's output |
| ClusterRoundTrip.NilFieldDropped | vendor/github.com/openshift-online/ocm-sdk-go/clustersmgmt/v1/cluster_type_json.go:374-376 | a set bit over a nil map or reference does not survive the round trip: the cluster read back lacks exactly that bit and has every other accessor of the original |
| ClusterRoundTrip.EmptyNameEndsObject | vendor/github.com/openshift-online/ocm-sdk-go/clustersmgmt/v1/cluster_type_json.go:488-491 | the generated loop stops at an empty member name and leaves the rest unread, without an error |
| ClusterRoundTrip.EmptyNameSkipped | vendor/github.com/openshift-online/ocm-sdk-go/clustersmgmt/v1/cluster_type_json.go:785-786 | the corrected loop skips an empty-named member like any unknown one |
| ClusterRoundTrip.EmptyNameDropsRest | vendor/github.com/openshift-online/ocm-sdk-go/clustersmgmt/v1/cluster_type_json.go:486-492 | `{"": 1, "id": "x"}` gives an empty cluster and no error under the generated reader, and the identifier `x` under the corrected one |
| ClusterRoundTrip.EmptyKeyClusterMembers | vendor/github.com/openshift-online/ocm-sdk-go/clustersmgmt/v1/cluster_type_json.go:374 | a cluster holding only a properties map writes only that member |
| ClusterRoundTrip.SingleEntryTokens | vendor/github.com/openshift-online/ocm-sdk-go/clustersmgmt/v1/cluster_type_json.go:378-396 | a one-entry map is written as an object with one member and no comma |
| ClusterRoundTrip.WriteEmptyKeyCluster | vendor/github.com/openshift-online/ocm-sdk-go/clustersmgmt/v1/cluster_type_json.go:41-467 | the complete output of the writer for a cluster whose properties map the empty key to a value |
| ClusterRoundTrip.EmptyKeyEndsProperties | vendor/github.com/openshift-online/ocm-sdk-go/clustersmgmt/v1/cluster_type_json.go:746-750 | the generated properties loop stops at an empty key as if the map had ended |
| ClusterRoundTrip.StrayValue | vendor/github.com/openshift-online/ocm-sdk-go/clustersmgmt/v1/cluster_type_json.go:488 | a string where a member name should start is an error |
| ClusterRoundTrip.EmptyKeyMembersAsWritten | vendor/github.com/openshift-online/ocm-sdk-go/clustersmgmt/v1/cluster_type_json.go:744-755 | after the properties loop stops at the empty key, the outer loop meets the entry's value and fails |
| ClusterRoundTrip.EmptyKeyTokensAsWritten | vendor/github.com/openshift-online/ocm-sdk-go/clustersmgmt/v1/cluster_type_json.go:471-482 | unmarshalling that output with the generated reader fails on the stray value |
| ClusterRoundTrip.EmptyPropertyKeyAsWritten | vendor/github.com/openshift-online/ocm-sdk-go/clustersmgmt/v1/cluster_type_json.go:744-755 | what the writer makes of properties `{"": v}` cannot be read back by the generated reader: the result is an error |
| ClusterRoundTrip.EmptyPropertyKeyCorrected | vendor/github.com/openshift-online/ocm-sdk-go/clustersmgmt/v1/cluster_type_json.go:744-755 | the corrected reader reads that output back as properties `{"": v}` |

## Left out

- The mutex in `tokens`, the exponential back-off timing, the 15-second elapsed-time limit and context cancellation in `Tokens` are concurrency and wall-clock behaviour. `Tokens` is a sequential retry over an attempt budget, and each attempt reads a clock, given as a function of the attempt number, for its own time.
- Lifecycle.Retry: the number of attempts is a parameter, where the source stops after 15 seconds of back-off; the model does not say how many attempts fit in that time.
- JWT decoding (`jwt.Parser.ParseUnverified`) is a foreign library. A token is its text together with what decoding made of it.
- Jwt.GetTokenExpiry: `exp` is in whole seconds, not a `float64`. Fractional seconds and the truncation `int64(exp)` are not modelled.
- Building and encoding the HTTP request, `clientSelector`, TLS, trusted CAs and `CheckContentType` are not modelled. Reading and JSON-decoding the response body are not modelled either: the response is an already-parsed record, and a bad body is one of three faults.
- URL parsing of the token URL and metric registration in `Build` (lines 376-478) are I/O and side effects. Prometheus metric observation is kept only as the list of (attempt, code) pairs; durations are not modelled.
- Lifecycle.Observe: the observations are what would be recorded when a token metric is configured; with neither metric set the source records nothing (line 829).
- Endpoint.SendTokenForm: a body that fails JSON decoding part-way is a `BadJson` fault that carries no fields, whereas `json.Unmarshal` keeps the fields decoded before the error (line 898). So a reply such as `{"error":"invalid_grant","error_description":5}` makes the source fall back to the credentials (lines 798-815) and the model not.
- Logging and `debugExpiry` write only to the log.
- `AuthTransport.Authorize` stops before the wrapped transport's `RoundTrip`, which is a foreign call.
- The nested `writeX`/`readX` functions for referenced types and lists, and the RFC 3339 timestamp writing and parsing, are not part of this model. Their values are single opaque tokens.
- ClusterRoundTrip.RoundTrip: covered only for clusters whose set attributes are strings, enumerations, booleans, integers and non-nil properties, because reference, list and timestamp values are opaque, and because a set bit over a nil map is not written (line 374) and is lost, as `ClusterRoundTrip.NilFieldDropped` states.
- ClusterRoundTrip.RoundTripCorrected: the same restriction, for the same reasons; the corrected reader does not bring back a bit whose map was nil either.
- ClusterJson.ReadNested: `null` for a referenced object or list is an error in the model, where the source's nested loop reads it as an empty, non-nil value and sets the bit (lines 544-565).
- jsoniter's tokenizer, and `helpers.NewIterator` turning bytes, strings or readers into tokens, are not part of this model. An input it cannot open is `Unopenable`.
- ClusterJson.Decode: when the iterator reports an error, the Go function also returns the partly read object; the model returns only the error.
- ClusterJson.ReadInt: jsoniter's `ReadInt` on a non-integer number, or on one out of range, is not modelled beyond being an error.
- ClusterJson.Skip: `ReadAny` is a bracket-counting skip over tokens; its handling of malformed nesting inside the skipped value is not modelled beyond being an error. The whole-value skip is proved (ClusterJson.SkipFlatValue) only for objects and arrays without nested objects or arrays; for deeper values only the matching-close and suffix facts of Skip are stated.
- `Cluster.Link` and `ClusterList.Link` are `ClusterType.Link` and `ClusterType.ListLink`. `HREF` and each plain `X()` accessor are the first components of `Get` and `ListHREF`, and are not separate members.

## Findings

| source | as written | input that shows it | evidently intended | confidence | as-written member | corrected member |
|---|---|---|---|---|---|---|
| vendor/github.com/openshift-online/ocm-sdk-go/clustersmgmt/v1/cluster_type_json.go:744-755 | the properties loop stops when `ReadObject` returns `""`, which it also returns for an empty key | a cluster whose properties are `{"": "v"}`, written by `writeCluster` and read back by `UnmarshalCluster` | the map reads back as written, as every map without an empty key does | medium, not executed | ClusterRoundTrip.EmptyPropertyKeyAsWritten | ClusterRoundTrip.EmptyPropertyKeyCorrected |
| vendor/github.com/openshift-online/ocm-sdk-go/clustersmgmt/v1/cluster_type_json.go:486-492 | the member loop stops at an empty member name as if the object had ended, without an error | `{"": 1, "id": "x"}` | the empty-named member is skipped like any unknown member, and `id` is read | medium, not executed | ClusterRoundTrip.EmptyNameEndsObject | ClusterRoundTrip.EmptyNameSkipped |
