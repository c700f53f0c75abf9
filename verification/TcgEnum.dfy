/** The algorithm and event-type registries of the measured-boot log. */
module TcgEnum {
  import opened Common

  datatype TcgAlgorithm = Rsa | Tdes | Sha1 | Sha256 | Sha384 | Sha512 | Sm3

  /** The registry number of an algorithm. */
  function AlgorithmId(alg: TcgAlgorithm): nat {
    match alg
    case Rsa => 0x1
    case Tdes => 0x3
    case Sha1 => 0x4
    case Sha256 => 0xB
    case Sha384 => 0xC
    case Sha512 => 0xD
    case Sm3 => 0x12
  }

  function AlgorithmOf(id: nat): (r: Result<TcgAlgorithm>)
    ensures r.Ok? ==> AlgorithmId(r.value) == id
    ensures r.Err? ==> forall alg :: AlgorithmId(alg) != id
  {
    match id
    case 0x1 => Ok(Rsa)
    case 0x3 => Ok(Tdes)
    case 0x4 => Ok(Sha1)
    case 0xB => Ok(Sha256)
    case 0xC => Ok(Sha384)
    case 0xD => Ok(Sha512)
    case 0x12 => Ok(Sm3)
    case _ => Err
  }

  /** Digest length in bytes; only the hash algorithms have one. */
  function DigestSize(alg: TcgAlgorithm): Result<nat> {
    match alg
    case Sha1 => Ok(20)
    case Sha256 => Ok(32)
    case Sha384 => Ok(48)
    case Sha512 => Ok(64)
    case Sm3 => Ok(32)
    case _ => Err
  }

  /** The algorithms that the digest comparison and the replay can compute. */
  predicate Computable(alg: TcgAlgorithm) {
    alg.Sha256? || alg.Sha384? || alg.Sha512? || alg.Sm3?
  }

  datatype TcgEventType =
    | EvPrebootCert
    | EvPostCode
    | EvUnused
    | EvNoAction
    | EvSeparator
    | EvAction
    | EvEventTag
    | EvSCrtmContents
    | EvSCrtmVersion
    | EvCpuMicrocode
    | EvPlatformConfigFlags
    | EvTableOfDevices
    | EvCompactHash
    | EvIpl
    | EvIplPartitionData
    | EvNonhostCode
    | EvNonhostConfig
    | EvNonhostInfo
    | EvOmitBootDeviceEvents
    | EvEfiEventBase
    | EvEfiVariableDriverConfig
    | EvEfiVariableBoot
    | EvEfiBootServicesApplication
    | EvEfiBootServicesDriver
    | EvEfiRuntimeServicesDriver
    | EvEfiGptEvent
    | EvEfiAction
    | EvEfiPlatformFirmwareBlob
    | EvEfiHandoffTables
    | EvEfiPlatformFirmwareBlob2
    | EvEfiHandoffTables2
    | EvEfiVariableBoot2
    | EvEfiHcrtmEvent
    | EvEfiVariableAuthority
    | EvEfiSpdmFirmwareBlob
    | EvEfiSpdmFirmwareConfig

  /** The registry number of an event type. */
  function EventCode(t: TcgEventType): nat {
    match t
    case EvPrebootCert => 0x0
    case EvPostCode => 0x1
    case EvUnused => 0x2
    case EvNoAction => 0x3
    case EvSeparator => 0x4
    case EvAction => 0x5
    case EvEventTag => 0x6
    case EvSCrtmContents => 0x7
    case EvSCrtmVersion => 0x8
    case EvCpuMicrocode => 0x9
    case EvPlatformConfigFlags => 0xA
    case EvTableOfDevices => 0xB
    case EvCompactHash => 0xC
    case EvIpl => 0xD
    case EvIplPartitionData => 0xE
    case EvNonhostCode => 0xF
    case EvNonhostConfig => 0x10
    case EvNonhostInfo => 0x11
    case EvOmitBootDeviceEvents => 0x12
    case EvEfiEventBase => 0x80000000
    case EvEfiVariableDriverConfig => 0x80000001
    case EvEfiVariableBoot => 0x80000002
    case EvEfiBootServicesApplication => 0x80000003
    case EvEfiBootServicesDriver => 0x80000004
    case EvEfiRuntimeServicesDriver => 0x80000005
    case EvEfiGptEvent => 0x80000006
    case EvEfiAction => 0x80000007
    case EvEfiPlatformFirmwareBlob => 0x80000008
    case EvEfiHandoffTables => 0x80000009
    case EvEfiPlatformFirmwareBlob2 => 0x8000000A
    case EvEfiHandoffTables2 => 0x8000000B
    case EvEfiVariableBoot2 => 0x8000000C
    case EvEfiHcrtmEvent => 0x80000010
    case EvEfiVariableAuthority => 0x800000E0
    case EvEfiSpdmFirmwareBlob => 0x800000E1
    case EvEfiSpdmFirmwareConfig => 0x800000E2
  }

  /** The event types every platform has. */
  function BaseEventTypeOf(code: nat): Result<TcgEventType>
  {
    match code
    case 0x0 => Ok(EvPrebootCert)
    case 0x1 => Ok(EvPostCode)
    case 0x2 => Ok(EvUnused)
    case 0x3 => Ok(EvNoAction)
    case 0x4 => Ok(EvSeparator)
    case 0x5 => Ok(EvAction)
    case 0x6 => Ok(EvEventTag)
    case 0x7 => Ok(EvSCrtmContents)
    case 0x8 => Ok(EvSCrtmVersion)
    case 0x9 => Ok(EvCpuMicrocode)
    case 0xA => Ok(EvPlatformConfigFlags)
    case 0xB => Ok(EvTableOfDevices)
    case 0xC => Ok(EvCompactHash)
    case 0xD => Ok(EvIpl)
    case 0xE => Ok(EvIplPartitionData)
    case 0xF => Ok(EvNonhostCode)
    case 0x10 => Ok(EvNonhostConfig)
    case 0x11 => Ok(EvNonhostInfo)
    case 0x12 => Ok(EvOmitBootDeviceEvents)
    case _ => Err
  }

  /** The event types of EFI firmware. */
  function EfiEventTypeOf(code: nat): Result<TcgEventType>
  {
    match code
    case 0x80000000 => Ok(EvEfiEventBase)
    case 0x80000001 => Ok(EvEfiVariableDriverConfig)
    case 0x80000002 => Ok(EvEfiVariableBoot)
    case 0x80000003 => Ok(EvEfiBootServicesApplication)
    case 0x80000004 => Ok(EvEfiBootServicesDriver)
    case 0x80000005 => Ok(EvEfiRuntimeServicesDriver)
    case 0x80000006 => Ok(EvEfiGptEvent)
    case 0x80000007 => Ok(EvEfiAction)
    case 0x80000008 => Ok(EvEfiPlatformFirmwareBlob)
    case 0x80000009 => Ok(EvEfiHandoffTables)
    case 0x8000000A => Ok(EvEfiPlatformFirmwareBlob2)
    case 0x8000000B => Ok(EvEfiHandoffTables2)
    case 0x8000000C => Ok(EvEfiVariableBoot2)
    case 0x80000010 => Ok(EvEfiHcrtmEvent)
    case 0x800000E0 => Ok(EvEfiVariableAuthority)
    case 0x800000E1 => Ok(EvEfiSpdmFirmwareBlob)
    case 0x800000E2 => Ok(EvEfiSpdmFirmwareConfig)
    case _ => Err
  }

  function EventTypeOf(code: nat): Result<TcgEventType>
  {
    if code < 0x8000_0000 then BaseEventTypeOf(code) else EfiEventTypeOf(code)
  }

  lemma BaseEventTypeSound(code: nat)
    requires BaseEventTypeOf(code).Ok?
    ensures EventCode(BaseEventTypeOf(code).value) == code
  {
  }

  lemma EfiEventTypeSound(code: nat)
    requires EfiEventTypeOf(code).Ok?
    ensures EventCode(EfiEventTypeOf(code).value) == code
  {
  }

  lemma EventTypeOfSound(code: nat)
    requires EventTypeOf(code).Ok?
    ensures EventCode(EventTypeOf(code).value) == code
  {
    if code < 0x8000_0000 { BaseEventTypeSound(code); } else { EfiEventTypeSound(code); }
  }

  /** Both registries number their members injectively, so decoding inverts numbering. */
  lemma RegistriesInvert(alg: TcgAlgorithm, t: TcgEventType)
    ensures AlgorithmOf(AlgorithmId(alg)) == Ok(alg)
    ensures EventTypeOf(EventCode(t)) == Ok(t)
    ensures AlgorithmId(alg) < 0x1_0000
    ensures EventCode(t) < 0x1_0000_0000
  {
  }

  /** The hash algorithms are named after the length of their digests in bits; SHA-1 has 160 and SM3 256. */
  lemma DigestSizesAreBits()
    ensures DigestSize(Sha1) == Ok(160 / 8)
    ensures DigestSize(Sha256) == Ok(256 / 8)
    ensures DigestSize(Sha384) == Ok(384 / 8)
    ensures DigestSize(Sha512) == Ok(512 / 8)
    ensures DigestSize(Sm3) == Ok(256 / 8)
    ensures forall alg :: DigestSize(alg).Err? <==> alg.Rsa? || alg.Tdes?
  {
  }

  /** The registered types in the order of their numbers: those from 0, and those of EFI from 0x80000000. */
  const BASE_TYPES: seq<TcgEventType> := [
    EvPrebootCert, EvPostCode, EvUnused, EvNoAction, EvSeparator, EvAction, EvEventTag, EvSCrtmContents, EvSCrtmVersion,
    EvCpuMicrocode, EvPlatformConfigFlags, EvTableOfDevices, EvCompactHash, EvIpl, EvIplPartitionData, EvNonhostCode,
    EvNonhostConfig, EvNonhostInfo, EvOmitBootDeviceEvents]
  const EFI_TYPES: seq<TcgEventType> := [
    EvEfiEventBase, EvEfiVariableDriverConfig, EvEfiVariableBoot, EvEfiBootServicesApplication, EvEfiBootServicesDriver,
    EvEfiRuntimeServicesDriver, EvEfiGptEvent, EvEfiAction, EvEfiPlatformFirmwareBlob, EvEfiHandoffTables,
    EvEfiPlatformFirmwareBlob2, EvEfiHandoffTables2, EvEfiVariableBoot2]

  lemma FirstNumbersInOrder(i: nat)
    requires i < 10
    ensures |BASE_TYPES| == 19 && EventCode(BASE_TYPES[i]) == i
  {
  }

  lemma LastNumbersInOrder(i: nat)
    requires 10 <= i < |BASE_TYPES|
    ensures EventCode(BASE_TYPES[i]) == i
  {
  }

  lemma EfiNumbersInOrder(i: nat)
    requires i < |EFI_TYPES|
    ensures EventCode(EFI_TYPES[i]) == 0x8000_0000 + i
  {
  }

  lemma NumbersInOrder(i: nat)
    ensures i < |BASE_TYPES| ==> EventCode(BASE_TYPES[i]) == i
    ensures i < |EFI_TYPES| ==> EventCode(EFI_TYPES[i]) == 0x8000_0000 + i
  {
    if i < 10 { FirstNumbersInOrder(i); } else if i < |BASE_TYPES| { LastNumbersInOrder(i); }
    if i < |EFI_TYPES| { EfiNumbersInOrder(i); }
  }

  /** The numbers out of order, and those of the algorithms. What starts a log with a table is type 3,
      what reads as a stop flag type 0, and what carries device paths type 0x80000003. */
  lemma NumbersOfTheFormat()
    ensures EventCode(EvEfiHcrtmEvent) == 0x8000_0010 && EventCode(EvEfiVariableAuthority) == 0x8000_00E0
    ensures EventCode(EvEfiSpdmFirmwareBlob) == 0x8000_00E1 && EventCode(EvEfiSpdmFirmwareConfig) == 0x8000_00E2
    ensures EventTypeOf(3) == Ok(EvNoAction) && EventTypeOf(0) == Ok(EvPrebootCert)
    ensures EventTypeOf(0x8000_0003) == Ok(EvEfiBootServicesApplication) && EventTypeOf(0xFFFF_FFFF).Err?
    ensures AlgorithmOf(1) == Ok(Rsa) && AlgorithmOf(3) == Ok(Tdes) && AlgorithmOf(4) == Ok(Sha1)
    ensures AlgorithmOf(11) == Ok(Sha256) && AlgorithmOf(12) == Ok(Sha384)
    ensures AlgorithmOf(13) == Ok(Sha512) && AlgorithmOf(18) == Ok(Sm3)
  {
  }
}
