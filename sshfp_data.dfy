/** The RDATA of a DNS SSHFP record (section 3.1 of RFC 4255): an algorithm
    number, a fingerprint type and a textual fingerprint, validated once when
    the record is constructed and exposed both through typed accessors and
    through a read-only, insertion-ordered string-keyed map view. */
module SSHFP {
  import opened Wrappers

  /** A Java `int`. The setters of the builder take this type. */
  type Int32 = x: int | -0x8000_0000 <= x < 0x8000_0000

  /** Boxed values held by the generic map view (`Integer` or `String`). */
  datatype Value = IntV(i: int) | StrV(s: string)

  /** The two integer parameters the constructor checks for being unsigned. */
  datatype Field = AlgorithmField | FptypeField

  /** What the constructor throws: an `IllegalArgumentException` from
      `checkArgument`, naming the field, or a `NullPointerException` from
      `checkNotNull` on the fingerprint. */
  datatype Error = InvalidArgument(field: Field) | NullFingerprint

  const AlgorithmKey: string := "algorithm"
  const FptypeKey: string := "fptype"
  const FingerprintKey: string := "fingerprint"

  /** The three fields of the record together with the map it delegates to. */
  datatype Record = Record(algorithm: Int32, fptype: Int32, fingerprint: string,
                           delegate: seq<(string, Value)>)

  /** The map the constructor builds, in insertion order. */
  function EntriesOf(algorithm: Int32, fptype: Int32, fingerprint: string): seq<(string, Value)>
  {
    [(AlgorithmKey, IntV(algorithm)), (FptypeKey, IntV(fptype)), (FingerprintKey, StrV(fingerprint))]
  }

  /** What the private constructor guarantees of every instance. */
  predicate WellFormed(r: Record)
  {
    r.algorithm >= 0 && r.fptype >= 0 && r.delegate == EntriesOf(r.algorithm, r.fptype, r.fingerprint)
  }

  /** An instance of the record: no value of this type breaks the constructor's checks. */
  type SSHFPData = r: Record | WellFormed(r) witness Record(0, 0, "", EntriesOf(0, 0, ""))

  /** Every check the constructor would fail, in the order the constructor runs them. */
  function Violations(algorithm: Int32, fptype: Int32, fingerprint: Option<string>): seq<Error>
  {
    (if algorithm < 0 then [InvalidArgument(AlgorithmField)] else [])
    + (if fptype < 0 then [InvalidArgument(FptypeField)] else [])
    + (if fingerprint.None? then [NullFingerprint] else [])
  }

  /** The private constructor: checks the algorithm, then the fptype, then
      that the fingerprint is not null, and builds the delegate map. It
      succeeds exactly when no check fails, reports the first failing check
      otherwise, and the accessors then return the arguments unchanged. */
  function Construct(algorithm: Int32, fptype: Int32, fingerprint: Option<string>): (r: Result<SSHFPData, Error>)
    ensures r.Success? <==> Violations(algorithm, fptype, fingerprint) == []
    ensures r.Success? <==> 0 <= algorithm && 0 <= fptype && fingerprint.Some?
    ensures r.Failure? ==> |Violations(algorithm, fptype, fingerprint)| > 0
                           && r.error == Violations(algorithm, fptype, fingerprint)[0]
    ensures r.Success? ==> r.value.algorithm == algorithm && r.value.fptype == fptype
                           && fingerprint == Some(r.value.fingerprint)
  {
    if algorithm < 0 then Failure(InvalidArgument(AlgorithmField))
    else if fptype < 0 then Failure(InvalidArgument(FptypeField))
    else match fingerprint
      case None => Failure(NullFingerprint)
      case Some(s) => Success(Record(algorithm, fptype, s, EntriesOf(algorithm, fptype, s)))
  }

  /** `delegate()`: the entries of the map view, in insertion order, each
      value equal to the matching accessor. */
  function Delegate(d: SSHFPData): (entries: seq<(string, Value)>)
    ensures entries == [(AlgorithmKey, IntV(d.algorithm)), (FptypeKey, IntV(d.fptype)),
                        (FingerprintKey, StrV(d.fingerprint))]
  {
    d.delegate
  }

  /** Lookup by key in an insertion-ordered entry list: the value of the
      first entry with that key, or none when no entry has it. */
  function Lookup(entries: seq<(string, Value)>, key: string): (v: Option<Value>)
    ensures v.None? <==> forall i :: 0 <= i < |entries| ==> entries[i].0 != key
    ensures v.Some? ==> exists i :: 0 <= i < |entries| && entries[i] == (key, v.value)
                                    && forall j :: 0 <= j < i ==> entries[j].0 != key
  {
    if entries == [] then None
    else if entries[0].0 == key then Some(entries[0].1)
    else
      var v := Lookup(entries[1..], key);
      assert forall i :: 0 < i < |entries| ==> entries[i] == entries[1..][i - 1];
      v
  }

  /** The unordered map an entry list denotes, as `Map.equals` compares it. */
  function AsMap(entries: seq<(string, Value)>): (m: map<string, Value>)
    ensures forall k :: k in m <==> Lookup(entries, k).Some?
    ensures forall k :: k in m ==> m[k] == Lookup(entries, k).value
  {
    if entries == [] then map[]
    else
      var m := AsMap(entries[1..]);
      assert forall k :: k != entries[0].0 ==> Lookup(entries, k) == Lookup(entries[1..], k);
      m[entries[0].0 := entries[0].1]
  }

  /** Lookup in the constructor's map: the three keys are distinct, so each
      finds its own value and any other key finds nothing. */
  lemma LookupEntriesOf(algorithm: Int32, fptype: Int32, fingerprint: string, key: string)
    ensures Lookup(EntriesOf(algorithm, fptype, fingerprint), key)
            == if key == AlgorithmKey then Some(IntV(algorithm))
               else if key == FptypeKey then Some(IntV(fptype))
               else if key == FingerprintKey then Some(StrV(fingerprint))
               else None
  {
    var e := EntriesOf(algorithm, fptype, fingerprint);
    assert |AlgorithmKey| == 9 && |FptypeKey| == 6 && |FingerprintKey| == 11;
    assert e[1..] == [(FptypeKey, IntV(fptype)), (FingerprintKey, StrV(fingerprint))];
    assert e[1..][1..] == [(FingerprintKey, StrV(fingerprint))];
    assert e[1..][1..][1..] == [];
    if key != AlgorithmKey {
      assert Lookup(e, key) == Lookup(e[1..], key);
      if key != FptypeKey {
        assert Lookup(e[1..], key) == Lookup(e[1..][1..], key);
        if key != FingerprintKey {
          assert Lookup(e[1..][1..], key) == Lookup(e[1..][1..][1..], key);
        }
      }
    }
  }

  /** `get(key)` on the map view: each key answers the matching accessor. */
  function Get(d: SSHFPData, key: string): (v: Option<Value>)
    ensures key == AlgorithmKey ==> v == Some(IntV(d.algorithm))
    ensures key == FptypeKey ==> v == Some(IntV(d.fptype))
    ensures key == FingerprintKey ==> v == Some(StrV(d.fingerprint))
    ensures key != AlgorithmKey && key != FptypeKey && key != FingerprintKey ==> v == None
  {
    LookupEntriesOf(d.algorithm, d.fptype, d.fingerprint, key);
    Lookup(d.delegate, key)
  }

  /** `containsKey(key)` on the map view. */
  function ContainsKey(d: SSHFPData, key: string): (b: bool)
    ensures b <==> key == AlgorithmKey || key == FptypeKey || key == FingerprintKey
  {
    Get(d, key).Some?
  }

  /** `size()` on the map view: always three, since the keys are distinct. */
  function Size(d: SSHFPData): (n: nat)
    ensures n == 3
  {
    var keys := AsMap(d.delegate).Keys;
    assert keys == {AlgorithmKey, FptypeKey, FingerprintKey} by {
      forall k ensures k in keys <==> k in {AlgorithmKey, FptypeKey, FingerprintKey} {
        LookupEntriesOf(d.algorithm, d.fptype, d.fingerprint, k);
      }
    }
    assert |{AlgorithmKey, FptypeKey}| == 2 by {
      assert |AlgorithmKey| != |FptypeKey|;
    }
    assert |{AlgorithmKey, FptypeKey, FingerprintKey}| == 3 by {
      assert |FingerprintKey| != |AlgorithmKey| && |FingerprintKey| != |FptypeKey|;
      assert FingerprintKey !in {AlgorithmKey, FptypeKey};
    }
    |keys|
  }

  /** `isEmpty()` on the map view: never. */
  function IsEmpty(d: SSHFPData): (b: bool)
    ensures !b
  {
    Size(d) == 0
  }

  /** `containsValue(v)` on the map view: true exactly for the three accessors' values. */
  function ContainsValue(d: SSHFPData, v: Value): (b: bool)
    ensures b <==> v == IntV(d.algorithm) || v == IntV(d.fptype) || v == StrV(d.fingerprint)
  {
    assert d.delegate[0].1 == IntV(d.algorithm) && d.delegate[1].1 == IntV(d.fptype)
           && d.delegate[2].1 == StrV(d.fingerprint);
    exists i :: 0 <= i < |d.delegate| && d.delegate[i].1 == v
  }

  /** The map view as an unordered map: exactly the three keys, each bound
      to the matching accessor. */
  lemma ViewAsMap(d: SSHFPData)
    ensures AsMap(d.delegate) == map[AlgorithmKey := IntV(d.algorithm), FptypeKey := IntV(d.fptype),
                                     FingerprintKey := StrV(d.fingerprint)]
  {
    var m := AsMap(d.delegate);
    var expected := map[AlgorithmKey := IntV(d.algorithm), FptypeKey := IntV(d.fptype),
                        FingerprintKey := StrV(d.fingerprint)];
    assert |AlgorithmKey| == 9 && |FptypeKey| == 6 && |FingerprintKey| == 11;
    forall k ensures (k in m <==> k in expected) && (k in m ==> m[k] == expected[k]) {
      LookupEntriesOf(d.algorithm, d.fptype, d.fingerprint, k);
    }
    assert m.Keys == expected.Keys;
  }

  /** `equals(other)` delegated to the map view, against any string-keyed map. */
  predicate EqualsMap(d: SSHFPData, other: map<string, Value>)
  {
    AsMap(d.delegate) == other
  }

  /** A record equals a map exactly when the map holds the three keys and
      nothing else, each bound to the matching accessor's value. */
  lemma EqualsMapIff(d: SSHFPData, other: map<string, Value>)
    ensures EqualsMap(d, other) <==> other == map[AlgorithmKey := IntV(d.algorithm), FptypeKey := IntV(d.fptype),
                                                  FingerprintKey := StrV(d.fingerprint)]
  {
    ViewAsMap(d);
  }

  /** `equals` between two records, through the map view of the second. */
  predicate Equals(a: SSHFPData, b: SSHFPData)
  {
    EqualsMap(a, AsMap(b.delegate))
  }

  /** Two records are equal (through the delegated map equality) exactly when
      all three fields are equal, which is also Dafny's own value equality. */
  lemma EqualsIffSameFields(a: SSHFPData, b: SSHFPData)
    ensures Equals(a, b) <==> (a.algorithm == b.algorithm && a.fptype == b.fptype
                               && a.fingerprint == b.fingerprint)
    ensures Equals(a, b) <==> a == b
  {
    if Equals(a, b) {
      var ma, mb := AsMap(a.delegate), AsMap(b.delegate);
      assert Get(a, AlgorithmKey) == Some(IntV(a.algorithm));
      assert Get(b, AlgorithmKey) == Some(IntV(b.algorithm));
      assert ma[AlgorithmKey] == mb[AlgorithmKey];
      assert Get(a, FptypeKey) == Some(IntV(a.fptype));
      assert Get(b, FptypeKey) == Some(IntV(b.fptype));
      assert ma[FptypeKey] == mb[FptypeKey];
      assert Get(a, FingerprintKey) == Some(StrV(a.fingerprint));
      assert Get(b, FingerprintKey) == Some(StrV(b.fingerprint));
      assert ma[FingerprintKey] == mb[FingerprintKey];
    }
  }

  /** The constructor, given the values read back from a record's map view,
      rebuilds that very record. */
  lemma ConstructFromView(d: SSHFPData)
    ensures Construct(d.algorithm, d.fptype, Some(d.fingerprint)) == Success(d)
  {
  }

  /** No upper bound on either integer: values outside the octet range are accepted. */
  lemma AcceptsBeyondOctetRange(algorithm: Int32, fptype: Int32, fingerprint: string)
    requires 255 < algorithm && 255 < fptype
    ensures Construct(algorithm, fptype, Some(fingerprint)).Success?
  {
  }

  /** The mutable staging object. Setters store without checking and return
      the same builder; validation happens only in `Build`. */
  class Builder {
    var algorithm: Int32
    var fptype: Int32
    var fingerprint: Option<string>

    /** `builder()`: Java's field defaults, zero for the integers and null
        for the fingerprint. */
    constructor ()
      ensures algorithm == 0 && fptype == 0 && fingerprint == None
    {
      algorithm, fptype, fingerprint := 0, 0, None;
    }

    method Algorithm(algorithm: Int32) returns (self: Builder)
      modifies this
      ensures self == this
      ensures this.algorithm == algorithm
      ensures fptype == old(fptype) && fingerprint == old(fingerprint)
    {
      this.algorithm := algorithm;
      self := this;
    }

    method Fptype(fptype: Int32) returns (self: Builder)
      modifies this
      ensures self == this
      ensures this.fptype == fptype
      ensures algorithm == old(algorithm) && fingerprint == old(fingerprint)
    {
      this.fptype := fptype;
      self := this;
    }

    method Fingerprint(fingerprint: Option<string>) returns (self: Builder)
      modifies this
      ensures self == this
      ensures this.fingerprint == fingerprint
      ensures algorithm == old(algorithm) && fptype == old(fptype)
    {
      this.fingerprint := fingerprint;
      self := this;
    }

    /** Hands the staged values to the constructor; the builder itself is
        left as it was (no `modifies`), so building again gives an equal result. */
    method Build() returns (r: Result<SSHFPData, Error>)
      ensures r == Construct(algorithm, fptype, fingerprint)
      ensures r.Success? <==> 0 <= algorithm && 0 <= fptype && fingerprint.Some?
      ensures r.Success? ==> r.value.algorithm == algorithm && r.value.fptype == fptype
                             && fingerprint == Some(r.value.fingerprint)
    {
      r := Construct(algorithm, fptype, fingerprint);
    }
  }

  /** `createDSA`: algorithm 2 (DSA), fptype 1 (SHA-1); fails only on a null fingerprint. */
  method CreateDSA(fingerprint: Option<string>) returns (r: Result<SSHFPData, Error>)
    ensures r == Construct(2, 1, fingerprint)
    ensures r.Success? <==> fingerprint.Some?
    ensures r.Failure? ==> r.error == NullFingerprint
    ensures r.Success? ==> r.value.algorithm == 2 && r.value.fptype == 1
                           && fingerprint == Some(r.value.fingerprint)
  {
    var b := new Builder();
    b := b.Algorithm(2);
    b := b.Fptype(1);
    b := b.Fingerprint(fingerprint);
    r := b.Build();
  }

  /** `createRSA`: algorithm 1 (RSA), fptype 1 (SHA-1); fails only on a null fingerprint. */
  method CreateRSA(fingerprint: Option<string>) returns (r: Result<SSHFPData, Error>)
    ensures r == Construct(1, 1, fingerprint)
    ensures r.Success? <==> fingerprint.Some?
    ensures r.Failure? ==> r.error == NullFingerprint
    ensures r.Success? ==> r.value.algorithm == 1 && r.value.fptype == 1
                           && fingerprint == Some(r.value.fingerprint)
  {
    var b := new Builder();
    b := b.Algorithm(1);
    b := b.Fptype(1);
    b := b.Fingerprint(fingerprint);
    r := b.Build();
  }

  /** Staging only a fingerprint builds a record with algorithm and fptype zero. */
  method BuildFingerprintOnly(fingerprint: string) returns (r: Result<SSHFPData, Error>)
    ensures r.Success?
    ensures r.value.algorithm == 0 && r.value.fptype == 0 && r.value.fingerprint == fingerprint
  {
    var b := new Builder();
    b := b.Fingerprint(Some(fingerprint));
    r := b.Build();
  }

  /** Never staging a fingerprint fails with the null-fingerprint error, even
      when both integers are valid. */
  method BuildWithoutFingerprint(algorithm: Int32, fptype: Int32) returns (r: Result<SSHFPData, Error>)
    requires 0 <= algorithm && 0 <= fptype
    ensures r == Failure(NullFingerprint)
  {
    var b := new Builder();
    b := b.Algorithm(algorithm);
    b := b.Fptype(fptype);
    r := b.Build();
  }

  /** Staging a setter twice keeps only the last value. */
  method BuildLastWriteWins(a1: Int32, a2: Int32, f1: Int32, f2: Int32, fingerprint: string)
    returns (r: Result<SSHFPData, Error>)
    requires 0 <= a2 && 0 <= f2
    ensures r.Success? && r.value.algorithm == a2 && r.value.fptype == f2 && r.value.fingerprint == fingerprint
  {
    var b := new Builder();
    b := b.Algorithm(a1);
    b := b.Fptype(f1);
    b := b.Fingerprint(None);
    b := b.Algorithm(a2);
    b := b.Fptype(f2);
    b := b.Fingerprint(Some(fingerprint));
    r := b.Build();
  }

  /** Reading the three values out of a record's map view and feeding them
      to a fresh builder yields an equal record; building twice from the same
      builder gives the same result. */
  method RebuildFromView(d: SSHFPData) returns (r: Result<SSHFPData, Error>, again: Result<SSHFPData, Error>)
    ensures r == Success(d) && again == r
    ensures r.Success? && Equals(r.value, d)
  {
    var algorithm: Int32 := Get(d, AlgorithmKey).value.i;
    var fptype: Int32 := Get(d, FptypeKey).value.i;
    var fingerprint := Get(d, FingerprintKey).value.s;
    var b := new Builder();
    b := b.Algorithm(algorithm);
    b := b.Fptype(fptype);
    b := b.Fingerprint(Some(fingerprint));
    r := b.Build();
    again := b.Build();
    ConstructFromView(d);
  }
}
