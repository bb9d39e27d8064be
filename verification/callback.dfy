/**
 * `Suite.Parse`: how an encrypted suite callback is authenticated, decrypted
 * and dispatched to one of the fourteen payload kinds. The message crypter
 * (signature and AES decryption) and XML decoding are foreign code; they are
 * parameters here.
 */
module Callback {
  import opened Wrappers
  import opened Base

  /** The payload structs a callback is decoded into, one constructor per struct. */
  datatype PayloadKind =
    | RecvSuiteTicket
    | RecvSuiteAuth
    | RecvCreateAuth
    | RecRegisterCorp
    | RecvChangeContactEvent
    | RecvChangeExternalTagEvent
    | RecvChangeExternalContactEvent
    | RecvChangeExternalChatEvent
    | RecvAutoActivateEvent
    | LicensePaySuccess
    | RecvChangeEvent
    | SysApprovalChangeEvent
    | RecvCustomerAcquisitionEvent
    | ProgramNotifyEvent

  /** The two tags read from the decrypted message before it is decoded in full. */
  datatype Probe = Probe(infoType: string, event: string)

  /** What decryption yields: the plaintext and the suite id it was encrypted for. */
  datatype Decrypted = Decrypted(origData: string, suiteID: string)

  /** `crypter.MessageCrypter`: `GetSignature(timestamp, nonce, encrypt)` and `Decrypt(encrypt)`. */
  datatype Crypter = Crypter(
    signature: (string, string, string) -> string,
    decrypt: string -> Result<Decrypted, Error>)

  /**
   * `xml.Unmarshal` in its three uses: the `Encrypt` field of the request body,
   * the probe of the plaintext, and whether the plaintext decodes as a payload kind.
   */
  datatype Xml = Xml(
    encrypt: string -> Option<string>,
    probe: string -> Option<Probe>,
    decodes: (PayloadKind, string) -> bool)

  /** A dispatched callback: the payload kind and the plaintext it was decoded from. */
  datatype Message = Message(kind: PayloadKind, origData: string)

  /** The outer switch, on `InfoType`. */
  function InfoTypeKind(infoType: string): Option<PayloadKind>
  {
    match infoType
    case "suite_ticket" => Some(RecvSuiteTicket)
    case "change_auth" => Some(RecvSuiteAuth)
    case "cancel_auth" => Some(RecvSuiteAuth)
    case "create_auth" => Some(RecvCreateAuth)
    case "register_corp" => Some(RecRegisterCorp)
    case "change_contact" => Some(RecvChangeContactEvent)
    case "change_external_tag" => Some(RecvChangeExternalTagEvent)
    case "change_external_contact" => Some(RecvChangeExternalContactEvent)
    case "change_external_chat" => Some(RecvChangeExternalChatEvent)
    case "auto_activate" => Some(RecvAutoActivateEvent)
    case "license_pay_success" => Some(LicensePaySuccess)
    case _ => None
  }

  /** The inner switch, on `Event`, reached only through the outer switch's default. */
  function EventKind(event: string): Option<PayloadKind>
  {
    match event
    case "change_app_admin" => Some(RecvChangeEvent)
    case "subscribe" => Some(RecvChangeEvent)
    case "enter_agent" => Some(RecvChangeEvent)
    case "unsubscribe" => Some(RecvChangeEvent)
    case "sys_approval_change" => Some(SysApprovalChangeEvent)
    case "customer_acquisition" => Some(RecvCustomerAcquisitionEvent)
    case "program_notify" => Some(ProgramNotifyEvent)
    case _ => None
  }

  /** The nested switch: `InfoType` first, `Event` only when `InfoType` matched no tag. */
  function Classify(p: Probe): Option<PayloadKind>
  {
    match InfoTypeKind(p.infoType)
    case Some(kind) => Some(kind)
    case None => EventKind(p.event)
  }

  /** The `InfoType` tags the outer switch matches: eleven tags over ten cases. */
  const InfoTypeTags: set<string> := {
    "suite_ticket", "change_auth", "cancel_auth", "create_auth", "register_corp",
    "change_contact", "change_external_tag", "change_external_contact",
    "change_external_chat", "auto_activate", "license_pay_success"}

  /** The `Event` tags the inner switch matches: seven tags over four cases. */
  const EventTags: set<string> := {
    "change_app_admin", "subscribe", "enter_agent", "unsubscribe",
    "sys_approval_change", "customer_acquisition", "program_notify"}

  /**
   * `Parse(body, signature, timestamp, nonce)` of the suite whose id is `suiteID`
   * and whose message crypter is `crypter`.
   */
  function Parse(suiteID: string, crypter: Crypter, xml: Xml,
                 body: string, signature: string, timestamp: string, nonce: string): (r: Result<Message, Error>)
    // an accepted message passed every stage: its signature matched, it decrypted,
    // its tags were classified to its kind and it decoded as that kind
    ensures r.Ok? ==>
      && xml.encrypt(body).Some?
      && signature == crypter.signature(timestamp, nonce, xml.encrypt(body).value)
      && crypter.decrypt(xml.encrypt(body).value).Ok?
      && r.value.origData == crypter.decrypt(xml.encrypt(body).value).value.origData
      && xml.probe(r.value.origData).Some?
      && Classify(xml.probe(r.value.origData).value) == Some(r.value.kind)
      && xml.decodes(r.value.kind, r.value.origData)
  {
    match xml.encrypt(body)
    case None => Err(DecodeFailed)
    case Some(encrypt) =>
      if signature != crypter.signature(timestamp, nonce, encrypt) then Err(SignatureInvalid)
      else match crypter.decrypt(encrypt)
        case Err(e) => Err(e)
        case Ok(d) =>
          match xml.probe(d.origData)
          case None => Err(DecodeFailed)
          case Some(p) =>
            // a plaintext for another suite (d.suiteID != suiteID) is only logged
            match Classify(p)
            case None => Err(UnknownMessageType(p.infoType, d.origData))
            case Some(kind) =>
              if xml.decodes(kind, d.origData) then Ok(Message(kind, d.origData)) else Err(DecodeFailed)
  }

  /** Each switch selects a kind exactly for the tags it lists. */
  lemma KnownTags(infoType: string, event: string)
    ensures InfoTypeKind(infoType).Some? <==> infoType in InfoTypeTags
    ensures EventKind(event).Some? <==> event in EventTags
  {
  }

  /** A matching `InfoType` decides alone; the `Event` tag is not looked at. */
  lemma InfoTypeFirst(infoType: string, event: string, otherEvent: string)
    requires InfoTypeKind(infoType).Some?
    ensures Classify(Probe(infoType, event)) == Classify(Probe(infoType, otherEvent)) == InfoTypeKind(infoType)
  {
  }

  /** When `InfoType` matches none of its tags, whatever it is, `Event` alone decides. */
  lemma EventOnlyAfterInfoType(infoType: string, otherInfoType: string, event: string)
    requires infoType !in InfoTypeTags && otherInfoType !in InfoTypeTags
    ensures Classify(Probe(infoType, event)) == Classify(Probe(otherInfoType, event)) == EventKind(event)
  {
    KnownTags(infoType, event);
    KnownTags(otherInfoType, event);
  }

  /**
   * Both authorisation-change tags yield `RecvSuiteAuth`, and the four change
   * events yield `RecvChangeEvent` under any unmatched `InfoType`.
   */
  lemma SharedKinds(infoType: string, event: string)
    ensures Classify(Probe("change_auth", event)) == Classify(Probe("cancel_auth", event)) == Some(RecvSuiteAuth)
    ensures infoType !in InfoTypeTags && event in {"change_app_admin", "subscribe", "enter_agent", "unsubscribe"} ==>
      Classify(Probe(infoType, event)) == Some(RecvChangeEvent)
  {
    if infoType !in InfoTypeTags {
      KnownTags(infoType, event);
    }
  }

  /**
   * Those are the only shared kinds: any other two different tags select
   * different kinds, and no `Event` tag selects a kind an `InfoType` tag does.
   */
  lemma OnlySharedKinds(a: string, b: string)
    ensures a in InfoTypeTags && b in InfoTypeTags && a != b && InfoTypeKind(a) == InfoTypeKind(b) ==>
      {a, b} == {"change_auth", "cancel_auth"}
    ensures a in EventTags && b in EventTags && a != b && EventKind(a) == EventKind(b) ==>
      EventKind(a) == Some(RecvChangeEvent)
    ensures a in InfoTypeTags && b in EventTags ==> InfoTypeKind(a) != EventKind(b)
  {
  }

  /** A pair of tags is unknown exactly when neither tag is in its table. */
  lemma UnknownExactly(p: Probe)
    ensures Classify(p).None? <==> p.infoType !in InfoTypeTags && p.event !in EventTags
  {
    KnownTags(p.infoType, p.event);
  }

  /** Every payload kind is reached by some pair of tags. */
  lemma EveryKindReachable(kind: PayloadKind)
    ensures exists p :: Classify(p) == Some(kind)
  {
    var p := match kind
      case RecvSuiteTicket => Probe("suite_ticket", "")
      case RecvSuiteAuth => Probe("change_auth", "")
      case RecvCreateAuth => Probe("create_auth", "")
      case RecRegisterCorp => Probe("register_corp", "")
      case RecvChangeContactEvent => Probe("change_contact", "")
      case RecvChangeExternalTagEvent => Probe("change_external_tag", "")
      case RecvChangeExternalContactEvent => Probe("change_external_contact", "")
      case RecvChangeExternalChatEvent => Probe("change_external_chat", "")
      case RecvAutoActivateEvent => Probe("auto_activate", "")
      case LicensePaySuccess => Probe("license_pay_success", "")
      case RecvChangeEvent => Probe("", "subscribe")
      case SysApprovalChangeEvent => Probe("", "sys_approval_change")
      case RecvCustomerAcquisitionEvent => Probe("", "customer_acquisition")
      case ProgramNotifyEvent => Probe("", "program_notify");
    assert Classify(p) == Some(kind);
  }

  /** A body whose signature does not match is rejected, whatever decryption would have done. */
  lemma BadSignatureRejected(suiteID: string, crypter: Crypter, xml: Xml,
                             body: string, signature: string, timestamp: string, nonce: string, encrypt: string)
    requires xml.encrypt(body) == Some(encrypt)
    requires signature != crypter.signature(timestamp, nonce, encrypt)
    ensures forall decrypt: string -> Result<Decrypted, Error> ::
      Parse(suiteID, Crypter(crypter.signature, decrypt), xml, body, signature, timestamp, nonce) == Err(SignatureInvalid)
  {
  }

  /** An authentic, decryptable message whose tags match no case is an "unknown message type" error. */
  lemma UnknownTypeRejected(suiteID: string, crypter: Crypter, xml: Xml,
                            body: string, signature: string, timestamp: string, nonce: string,
                            encrypt: string, d: Decrypted, p: Probe)
    requires xml.encrypt(body) == Some(encrypt)
    requires signature == crypter.signature(timestamp, nonce, encrypt)
    requires crypter.decrypt(encrypt) == Ok(d) && xml.probe(d.origData) == Some(p)
    requires p.infoType !in InfoTypeTags && p.event !in EventTags
    ensures Parse(suiteID, crypter, xml, body, signature, timestamp, nonce) == Err(UnknownMessageType(p.infoType, d.origData))
  {
    UnknownExactly(p);
  }

  /**
   * An authentic, decryptable message whose tags select a kind and which decodes
   * as that kind is accepted as that kind, whatever suite id its plaintext names.
   */
  lemma ValidCallbackAccepted(suiteID: string, crypter: Crypter, xml: Xml,
                              body: string, signature: string, timestamp: string, nonce: string,
                              encrypt: string, d: Decrypted, p: Probe, kind: PayloadKind)
    requires xml.encrypt(body) == Some(encrypt)
    requires signature == crypter.signature(timestamp, nonce, encrypt)
    requires crypter.decrypt(encrypt) == Ok(d) && xml.probe(d.origData) == Some(p)
    requires Classify(p) == Some(kind) && xml.decodes(kind, d.origData)
    ensures Parse(suiteID, crypter, xml, body, signature, timestamp, nonce) == Ok(Message(kind, d.origData))
  {
  }

  /** An authentic message that does not decrypt returns the crypter's own error. */
  lemma DecryptErrorReturned(suiteID: string, crypter: Crypter, xml: Xml,
                             body: string, signature: string, timestamp: string, nonce: string,
                             encrypt: string, e: Error)
    requires xml.encrypt(body) == Some(encrypt)
    requires signature == crypter.signature(timestamp, nonce, encrypt)
    requires crypter.decrypt(encrypt) == Err(e)
    ensures Parse(suiteID, crypter, xml, body, signature, timestamp, nonce) == Err(e)
  {
  }

  /**
   * A request body, plaintext probe or payload that does not unmarshal is the
   * decoding error.
   */
  lemma UndecodableRejected(suiteID: string, crypter: Crypter, xml: Xml,
                            body: string, signature: string, timestamp: string, nonce: string,
                            encrypt: string, d: Decrypted, p: Probe, kind: PayloadKind)
    ensures xml.encrypt(body).None? ==>
      Parse(suiteID, crypter, xml, body, signature, timestamp, nonce) == Err(DecodeFailed)
    ensures (xml.encrypt(body) == Some(encrypt) && signature == crypter.signature(timestamp, nonce, encrypt)
             && crypter.decrypt(encrypt) == Ok(d) && xml.probe(d.origData).None?) ==>
      Parse(suiteID, crypter, xml, body, signature, timestamp, nonce) == Err(DecodeFailed)
    ensures (xml.encrypt(body) == Some(encrypt) && signature == crypter.signature(timestamp, nonce, encrypt)
             && crypter.decrypt(encrypt) == Ok(d) && xml.probe(d.origData) == Some(p)
             && Classify(p) == Some(kind) && !xml.decodes(kind, d.origData)) ==>
      Parse(suiteID, crypter, xml, body, signature, timestamp, nonce) == Err(DecodeFailed)
  {
  }

  /** The suite id carried by the plaintext never changes the outcome: a mismatch is tolerated. */
  lemma SuiteIdTolerated(suiteID: string, otherID: string, crypter: Crypter, xml: Xml,
                         body: string, signature: string, timestamp: string, nonce: string)
    ensures Parse(suiteID, crypter, xml, body, signature, timestamp, nonce)
         == Parse(otherID, crypter, xml, body, signature, timestamp, nonce)
  {
  }
}
