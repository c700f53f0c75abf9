/** The kinds of trusted execution environments. */
module Tees {
  import opened Common

  datatype Tee =
    | Sev | AzSnpVtpm | AzTdxVtpm | Tdx | Snp | Sample | SampleDevice | Sgx | Csv | Cca | Se | HygonDcu | Nvidia | Tpm

  /** The name under which the claims of a TEE appear in a token. */
  function NameOf(t: Tee): (name: string)
    ensures '_' !in name
  {
    match t
    case Sev => "sev"
    case AzSnpVtpm => "az-snp-vtpm"
    case AzTdxVtpm => "az-tdx-vtpm"
    case Tdx => "tdx"
    case Snp => "snp"
    case Sample => "sample"
    case SampleDevice => "sampledevice"
    case Sgx => "sgx"
    case Csv => "csv"
    case Cca => "cca"
    case Se => "se"
    case HygonDcu => "hygondcu"
    case Nvidia => "nvidia"
    case Tpm => "tpm"
  }

  function NumberOf(t: Tee): (n: nat)
    ensures n < 14
  {
    match t
    case Sev => 0
    case AzSnpVtpm => 1
    case AzTdxVtpm => 2
    case Tdx => 3
    case Snp => 4
    case Sample => 5
    case SampleDevice => 6
    case Sgx => 7
    case Csv => 8
    case Cca => 9
    case Se => 10
    case HygonDcu => 11
    case Nvidia => 12
    case Tpm => 13
  }

  /** A message cannot carry evidence of more devices than there are kinds. */
  lemma AtMostAllKinds<V>(devices: map<Tee, V>)
    ensures |devices| <= 14
  {
    var numbers := set t | t in devices :: NumberOf(t);
    NumbersCount(devices.Keys, numbers);
    BelowCount(numbers, 14);
    assert |devices.Keys| == |devices|;
  }

  lemma {:induction false} NumbersCount(tees: set<Tee>, numbers: set<nat>)
    requires numbers == set t | t in tees :: NumberOf(t)
    ensures |numbers| == |tees|
  {
    if tees != {} {
      var t :| t in tees;
      var rest := set u | u in tees - {t} :: NumberOf(u);
      NumbersCount(tees - {t}, rest);
      assert numbers == rest + {NumberOf(t)};
    }
  }

  lemma {:induction false} BelowCount(numbers: set<nat>, n: nat)
    requires forall k :: k in numbers ==> k < n
    ensures |numbers| <= n
  {
    if n > 0 {
      BelowCount(numbers - {n - 1}, n - 1);
    } else {
      assert numbers == {};
    }
  }

  /** The kinds the REST interface of the attestation service knows by name. */
  function RestTee(name: string): (t: Option<Tee>)
    ensures t.Some? ==> NameOf(t.value) == name
  {
    if name == "az-snp-vtpm" then Some(AzSnpVtpm)
    else if name == "sev" then Some(Sev)
    else if name == "sgx" then Some(Sgx)
    else if name == "snp" then Some(Snp)
    else if name == "tdx" then Some(Tdx)
    else if name == "cca" then Some(Cca)
    else if name == "csv" then Some(Csv)
    else if name == "sample" then Some(Sample)
    else if name == "sampledevice" then Some(SampleDevice)
    else if name == "az-tdx-vtpm" then Some(AzTdxVtpm)
    else if name == "se" then Some(Se)
    else if name == "hygondcu" then Some(HygonDcu)
    else None
  }

  /** And those the gRPC interface knows. */
  function GrpcTee(name: string): (t: Option<Tee>)
    ensures t.Some? ==> NameOf(t.value) == name
  {
    if name == "sev" then Some(Sev)
    else if name == "sgx" then Some(Sgx)
    else if name == "snp" then Some(Snp)
    else if name == "tdx" then Some(Tdx)
    else if name == "csv" then Some(Csv)
    else if name == "sample" then Some(Sample)
    else if name == "az-snp-vtpm" then Some(AzSnpVtpm)
    else if name == "cca" then Some(Cca)
    else if name == "az-tdx-vtpm" then Some(AzTdxVtpm)
    else if name == "se" then Some(Se)
    else if name == "hygondcu" then Some(HygonDcu)
    else if name == "nvidia" then Some(Nvidia)
    else if name == "tpm" then Some(Tpm)
    else None
  }

  /** Both interfaces read the names back; each lacks some kinds, but between them they know all. */
  lemma NamesReadBack(t: Tee)
    ensures RestTee(NameOf(t)) == if t.Nvidia? || t.Tpm? then None else Some(t)
    ensures GrpcTee(NameOf(t)) == if t.SampleDevice? then None else Some(t)
  {
  }
}
