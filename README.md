# SSHFP record data

A model of `SSHFPData`, the RDATA of a DNS SSHFP record (section 3.1 of RFC 4255) in the
denominator model library. The record holds an algorithm number, a fingerprint type and a
textual fingerprint. Its private constructor checks them once: the algorithm must be
non-negative, then the fptype must be non-negative, then the fingerprint must not be null.
It then builds an insertion-ordered immutable map with the keys `"algorithm"`, `"fptype"` and
`"fingerprint"`, and the record forwards every map operation, equality included, to that map.
Records are made by a mutable `Builder` whose setters store values without checking, or by
the factories `createDSA` (algorithm 2, fptype 1) and `createRSA` (algorithm 1, fptype 1).

Files:
- `wrappers.dfy`: `Option` stands for a nullable reference and `Result` for a thrown exception.
- `sshfp_data.dfy`, module `SSHFP`: the record side is a datatype. A subset type `SSHFPData`
  ensures that no value breaks the constructor's checks. The constructor is the function
  `Construct`. The map view is the stored entry list with `Get`, `ContainsKey`,
  `ContainsValue`, `Size` and `IsEmpty`. `AsMap` turns it into an unordered map, and
  `EqualsMap` compares a record with any such map. `Builder` is a class whose setters change its fields in place.
  The factories are methods that run the same builder chain as the source.

Java `int` is the subset type `Int32`. A `null` fingerprint is `None`. `IllegalArgumentException`
is `InvalidArgument(field)`, and the field says which check fired. The `NullPointerException`
from `checkNotNull` is `NullFingerprint`.

The code checks the fingerprint only for null. An empty fingerprint is accepted. A missing
one fails with the null-pointer error from `checkNotNull`, not with a separate missing-field
error.

## Model

| member | source | states |
|---|---|---|
| SSHFP.Construct | denominator-model/src/main/java/denominator/model/rdata/SSHFPData.java:49-59 | succeeds exactly when algorithm >= 0, fptype >= 0 and the fingerprint is non-null, which is exactly when the list of violated checks is empty; otherwise reports the first violated check in source order (algorithm before fptype before null fingerprint); on success the accessors return the arguments unchanged; no upper bound, no hex or emptiness check |
| SSHFP.Delegate | denominator-model/src/main/java/denominator/model/rdata/SSHFPData.java:55-58 | the map view of every record has exactly the three entries algorithm, fptype, fingerprint in that insertion order, each value equal to the matching accessor |
| SSHFP.LookupEntriesOf | denominator-model/src/main/java/denominator/model/rdata/SSHFPData.java:55-58 | in the map the constructor builds, each of the three distinct keys finds its own value and every other key finds nothing |
| SSHFP.Lookup | denominator-model/src/main/java/denominator/model/rdata/SSHFPData.java:133-136 | map lookup over the ordered entries: none exactly when no entry has the key, otherwise the value of the first entry with that key |
| SSHFP.AsMap | denominator-model/src/main/java/denominator/model/rdata/SSHFPData.java:131-136 | the unordered map the delegate denotes: its keys are exactly the keys lookup finds, with the values lookup returns |
| SSHFP.Get | denominator-model/src/main/java/denominator/model/rdata/SSHFPData.java:133-136 | `get` through the view returns the algorithm, fptype and fingerprint for their keys, agreeing with the typed accessors, and nothing for any other key |
| SSHFP.ContainsKey | denominator-model/src/main/java/denominator/model/rdata/SSHFPData.java:133-136 | `containsKey` holds exactly for the three keys |
| SSHFP.IsEmpty | denominator-model/src/main/java/denominator/model/rdata/SSHFPData.java:133-136 | `isEmpty` of the view is always false |
| SSHFP.ContainsValue | denominator-model/src/main/java/denominator/model/rdata/SSHFPData.java:55-58 | `containsValue` holds exactly for the algorithm, fptype and fingerprint values of the record |
| SSHFP.ViewAsMap | denominator-model/src/main/java/denominator/model/rdata/SSHFPData.java:55-58 | as an unordered map, the view is exactly algorithm, fptype and fingerprint bound to the accessors' values |
| SSHFP.EqualsMapIff | denominator-model/src/main/java/denominator/model/rdata/SSHFPData.java:133-136 | a record equals any string-keyed map exactly when that map has exactly the three keys bound to the accessors' values |
| SSHFP.Size | denominator-model/src/main/java/denominator/model/rdata/SSHFPData.java:133-136 | `size` of the view is always 3 |
| SSHFP.EqualsIffSameFields | denominator-model/src/main/java/denominator/model/rdata/SSHFPData.java:28-28 | equality delegated to the map holds exactly when algorithm, fptype and fingerprint are all equal, and then the records are the same value |
| SSHFP.ConstructFromView | denominator-model/src/main/java/denominator/model/rdata/SSHFPData.java:49-59 | the constructor, given a record's own three values (those its map view holds), gives back that record |
| SSHFP.AcceptsBeyondOctetRange | denominator-model/src/main/java/denominator/model/rdata/SSHFPData.java:50-52 | every algorithm and fptype above 255, up to the largest int, is accepted |
| SSHFP.Builder.constructor | denominator-model/src/main/java/denominator/model/rdata/SSHFPData.java:92-95 | a fresh builder (from `builder()`) stages algorithm 0, fptype 0 and a null fingerprint |
| SSHFP.Builder.Algorithm | denominator-model/src/main/java/denominator/model/rdata/SSHFPData.java:100-103 | overwrites the staged algorithm, returns the same builder, leaves the other fields unchanged |
| SSHFP.Builder.Fptype | denominator-model/src/main/java/denominator/model/rdata/SSHFPData.java:108-111 | overwrites the staged fptype, returns the same builder, leaves the other fields unchanged |
| SSHFP.Builder.Fingerprint | denominator-model/src/main/java/denominator/model/rdata/SSHFPData.java:116-119 | overwrites the staged fingerprint (null allowed), returns the same builder, leaves the other fields unchanged |
| SSHFP.Builder.Build | denominator-model/src/main/java/denominator/model/rdata/SSHFPData.java:121-123 | validates exactly what is staged through the constructor; succeeds exactly when both integers are non-negative and a fingerprint is staged, the record then carrying the staged values; changes nothing in the builder |
| SSHFP.CreateDSA | denominator-model/src/main/java/denominator/model/rdata/SSHFPData.java:33-35 | equals the builder chain with algorithm 2 and fptype 1; fails only, and then with the null-fingerprint error, when the fingerprint is null |
| SSHFP.CreateRSA | denominator-model/src/main/java/denominator/model/rdata/SSHFPData.java:40-42 | equals the builder chain with algorithm 1 and fptype 1; fails only, and then with the null-fingerprint error, when the fingerprint is null |
| SSHFP.BuildFingerprintOnly | denominator-model/src/main/java/denominator/model/rdata/SSHFPData.java:93-95 | staging only a fingerprint builds a record with algorithm 0 and fptype 0 |
| SSHFP.BuildWithoutFingerprint | denominator-model/src/main/java/denominator/model/rdata/SSHFPData.java:54 | a fingerprint never staged fails with the null-fingerprint error when both integers are valid |
| SSHFP.BuildLastWriteWins | denominator-model/src/main/java/denominator/model/rdata/SSHFPData.java:100-119 | when each setter is called twice, the record carries the last algorithm, the last fptype and the last fingerprint, even after a null fingerprint was staged first |
| SSHFP.RebuildFromView | denominator-model/src/main/java/denominator/model/rdata/SSHFPData.java:121-123 | feeding the values of a record's map view into a fresh builder rebuilds an equal record; building twice from one builder gives the same result |

## Left out

- Mutation through the map view (`put`, `remove`, `clear` throwing `UnsupportedOperationException`): the view is an immutable value, so mutation cannot be expressed.
- Equals: compares a record only with string-keyed maps of integer and string values (`EqualsMap`), or with another record. In Java the map equality also accepts any `java.util.Map`, and any object that is not a map is simply unequal. Both cases are outside the value types of this model.
- `get` and `containsKey` with a `null` key or a key that is not a string: in Java they find nothing. Here keys are strings, so these calls cannot be written.
- `hashCode` and `toString` of the map: their exact numbers and text come from the collections library. Equal records hash alike because the hash is a function of the map.
- The `keySet`, `values` and `entrySet` collections of `ForwardingMap` are not modelled separately. Their order is the entry order that `Delegate` states.
- The duplicate-key check of `ImmutableMap.Builder.build()`: it cannot fire, because the three keys are distinct (`LookupEntriesOf`, `Size`).
- Exception message text, such as the `"%s must be unsigned"` formatting. Only the kind of error and the checked field are kept.
- `@ConstructorProperties` and the `transient` marker: these concern reflection and serialization only.
- The binary wire encoding of RFC 4255, octet range limits and hex validation of the fingerprint: the code does none of them.
- Concurrent use of a builder: the code has no synchronization.
- Strings are sequences of characters, with no UTF-16 encoding detail.
