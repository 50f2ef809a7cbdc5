/**
 * The "pnfRegistrationFields" object of a pnfRegistration event: a fixed,
 * ordered list of string members describing the simulated device, ending with
 * the nested "additionalFields" object that tells the collector how to reach
 * the device's NETCONF endpoint over SSH or TLS.
 */
module PnfFields {
  import opened Wrappers
  import opened Decimal
  import opened Json

  const FIELDS_VERSION := "2.0"
  const LAST_SERVICE_DATE := "2019-08-16"
  const MANUFACTURE_DATE := "2019-08-16"
  const MODEL_NUMBER := "Simulated Device Melacon"
  const OAM_V6_IP_ADDRESS := "0:0:0:0:0:ffff:a0a:011"
  const SOFTWARE_VERSION := "2.3.5"
  const UNIT_FAMILY := "Simulated Device"
  const UNIT_TYPE := "O-RAN-sim"
  const VENDOR_NAME := "Melacon"
  const NETCONF_USERNAME := "netconf"
  const NETCONF_PASSWORD := "netconf"

  /** The keys of the object, in the order the builder adds them. */
  const TOP_KEYS: seq<string> := [
    "pnfRegistrationFieldsVersion", "lastServiceDate", "macAddress", "manufactureDate",
    "modelNumber", "oamV4IpAddress", "oamV6IpAddress", "serialNumber",
    "softwareVersion", "unitFamily", "unitType", "vendorName"]

  /** The keys of "additionalFields": port, protocol, user, then the credential. */
  function AdditionalKeys(isTls: bool): seq<string> {
    ["oamPort", "protocol", "username", if isTls then "keyId" else "password"] + TUNING_KEYS
  }

  const TUNING_KEYS: seq<string> := [
    "reconnectOnChangedSchema", "sleep-factor", "tcpOnly", "connectionTimeout",
    "maxConnectionAttempts", "betweenAttemptsTimeout", "keepaliveDelay"]

  /** The reconnection and timeout settings, identical for SSH and TLS, all encoded as strings. */
  const TUNING_FIELDS: seq<Member> := [
    ("reconnectOnChangedSchema", Str("false")),
    ("sleep-factor", Str("1.5")),
    ("tcpOnly", Str("false")),
    ("connectionTimeout", Str("20000")),
    ("maxConnectionAttempts", Str("100")),
    ("betweenAttemptsTimeout", Str("2000")),
    ("keepaliveDelay", Str("120"))]

  /** "%s-%s-%d-Simulated Device Melacon" of hostname, address and port. */
  function SerialNumber(hostname: string, ip: string, port: int): string {
    hostname + "-" + ip + "-" + IntToDecimal(port) + "-Simulated Device Melacon"
  }

  /** The members of the object before "additionalFields". The resolved address, IPv4 or IPv6, is the oamV4IpAddress. */
  function TopFields(hostname: string, ip: string, port: int, mac: string): seq<Member> {
    [("pnfRegistrationFieldsVersion", Str(FIELDS_VERSION)),
     ("lastServiceDate", Str(LAST_SERVICE_DATE)),
     ("macAddress", Str(mac)),
     ("manufactureDate", Str(MANUFACTURE_DATE)),
     ("modelNumber", Str(MODEL_NUMBER)),
     ("oamV4IpAddress", Str(ip)),
     ("oamV6IpAddress", Str(OAM_V6_IP_ADDRESS)),
     ("serialNumber", Str(SerialNumber(hostname, ip, port))),
     ("softwareVersion", Str(SOFTWARE_VERSION)),
     ("unitFamily", Str(UNIT_FAMILY)),
     ("unitType", Str(UNIT_TYPE)),
     ("vendorName", Str(VENDOR_NAME))]
  }

  /** The members of "additionalFields"; TLS names a key, SSH gives a password. */
  function AdditionalFields(port: int, isTls: bool, keyName: string): seq<Member> {
    [("oamPort", Str(IntToDecimal(port))),
     ("protocol", Str(if isTls then "TLS" else "SSH")),
     ("username", Str(NETCONF_USERNAME)),
     if isTls then ("keyId", Str(keyName)) else ("password", Str(NETCONF_PASSWORD))]
    + TUNING_FIELDS
  }

  /** The complete object, "additionalFields" last. */
  function RegistrationFields(hostname: string, ip: string, port: int, isTls: bool, mac: string, keyName: string): Value {
    Obj(TopFields(hostname, ip, port, mac) + [("additionalFields", Obj(AdditionalFields(port, isTls, keyName)))])
  }

  /*
   * The builder performs 26 cJSON operations that can fail, numbered in the
   * order it performs them: 0 creates the object; 1 to 12 add the members of
   * TopFields in order; 13 creates "additionalFields"; 14 attaches it to the
   * object; 15 to 25 add the members of AdditionalFields in order. The random
   * MAC address is drawn between operations 2 and 3. Operation 14 is the only
   * one whose result the builder does not check.
   */
  const ATTACH_ADDITIONAL_STEP := 14

  /** Every operation on the outer object, up to the creation of "additionalFields", succeeds. */
  predicate TopStepsSucceed(ok: nat -> bool) {
    ok(0) && TopMembersAdded(ok) && ok(13)
  }

  /** Every addition of a member of TopFields succeeds. */
  predicate TopMembersAdded(ok: nat -> bool) {
    && ok(1) && ok(2) && ok(3) && ok(4) && ok(5) && ok(6)
    && ok(7) && ok(8) && ok(9) && ok(10) && ok(11) && ok(12)
  }

  /** Every addition to "additionalFields" succeeds. */
  predicate AdditionalStepsSucceed(ok: nat -> bool) {
    && ok(15) && ok(16) && ok(17) && ok(18) && ok(19) && ok(20)
    && ok(21) && ok(22) && ok(23) && ok(24) && ok(25)
  }

  /** Every operation whose failure makes the builder give up succeeds. */
  predicate CheckedStepsSucceed(ok: nat -> bool) {
    TopStepsSucceed(ok) && AdditionalStepsSucceed(ok)
  }

  /** What the builder returns, given the outcome of each operation and of the MAC draw. */
  function BuiltFields(hostname: string, ip: string, port: int, isTls: bool, keyName: string,
                       mac: Option<string>, ok: nat -> bool): Option<Value>
  {
    if mac.Some? && CheckedStepsSucceed(ok) then
      Some(if ok(ATTACH_ADDITIONAL_STEP) then RegistrationFields(hostname, ip, port, isTls, mac.value, keyName)
           else Obj(TopFields(hostname, ip, port, mac.value)))
    else None
  }

  /**
   * Builds the object member by member, returning None (a null object) as soon
   * as a checked operation or the MAC draw fails. The nested object is attached
   * before its members are added, so the members added afterwards appear in it;
   * if attaching it fails, the builder goes on and returns the object without it.
   */
  method CreateRegistrationFields(hostname: string, ip: string, port: int, isTls: bool, keyName: string,
                                  mac: Option<string>, ok: nat -> bool) returns (r: Option<Value>)
    ensures r == BuiltFields(hostname, ip, port, isTls, keyName, mac, ok)
    ensures r.Some? <==> mac.Some? && CheckedStepsSucceed(ok)
  {
    if !ok(0) { return None; }
    var top := FillTopFields(hostname, ip, port, mac, ok);
    if top.None? { return None; }
    if !ok(13) { return None; }
    var attached := ok(ATTACH_ADDITIONAL_STEP);
    var extra := FillAdditionalFields(port, isTls, keyName, ok);
    if extra.None? { return None; }
    if attached {
      r := Some(Obj(top.value + [("additionalFields", Obj(extra.value))]));
    } else {
      r := Some(Obj(top.value));
    }
  }

  /**
   * Adds the members of TopFields one by one, drawing the MAC address after
   * the second; None when an addition or the draw fails.
   */
  method FillTopFields(hostname: string, ip: string, port: int, mac: Option<string>, ok: nat -> bool)
    returns (top: Option<seq<Member>>)
    ensures top.Some? <==> mac.Some? && TopMembersAdded(ok)
    ensures top.Some? ==> top.value == TopFields(hostname, ip, port, mac.value)
  {
    var members: seq<Member> := [];
    if !ok(1) { return None; }
    members := members + [("pnfRegistrationFieldsVersion", Str(FIELDS_VERSION))];
    if !ok(2) { return None; }
    members := members + [("lastServiceDate", Str(LAST_SERVICE_DATE))];
    if mac.None? { return None; }
    var macAddress := mac.value;
    if !ok(3) { return None; }
    members := members + [("macAddress", Str(macAddress))];
    if !ok(4) { return None; }
    members := members + [("manufactureDate", Str(MANUFACTURE_DATE))];
    if !ok(5) { return None; }
    members := members + [("modelNumber", Str(MODEL_NUMBER))];
    if !ok(6) { return None; }
    members := members + [("oamV4IpAddress", Str(ip))];
    if !ok(7) { return None; }
    members := members + [("oamV6IpAddress", Str(OAM_V6_IP_ADDRESS))];
    var serialNumber := SerialNumber(hostname, ip, port);
    if !ok(8) { return None; }
    members := members + [("serialNumber", Str(serialNumber))];
    if !ok(9) { return None; }
    members := members + [("softwareVersion", Str(SOFTWARE_VERSION))];
    if !ok(10) { return None; }
    members := members + [("unitFamily", Str(UNIT_FAMILY))];
    if !ok(11) { return None; }
    members := members + [("unitType", Str(UNIT_TYPE))];
    if !ok(12) { return None; }
    members := members + [("vendorName", Str(VENDOR_NAME))];
    top := Some(members);
  }

  /**
   * Adds the members of "additionalFields" one by one, the protocol-specific
   * ones first; None when an addition fails.
   */
  method FillAdditionalFields(port: int, isTls: bool, keyName: string, ok: nat -> bool)
    returns (extra: Option<seq<Member>>)
    ensures extra.Some? <==> AdditionalStepsSucceed(ok)
    ensures extra.Some? ==> extra.value == AdditionalFields(port, isTls, keyName)
  {
    var members: seq<Member> := [];
    var portString := IntToDecimal(port);
    if !ok(15) { return None; }
    members := members + [("oamPort", Str(portString))];
    if isTls {
      if !ok(16) { return None; }
      members := members + [("protocol", Str("TLS"))];
      if !ok(17) { return None; }
      members := members + [("username", Str(NETCONF_USERNAME))];
      if !ok(18) { return None; }
      members := members + [("keyId", Str(keyName))];
    } else {
      if !ok(16) { return None; }
      members := members + [("protocol", Str("SSH"))];
      if !ok(17) { return None; }
      members := members + [("username", Str(NETCONF_USERNAME))];
      if !ok(18) { return None; }
      members := members + [("password", Str(NETCONF_PASSWORD))];
    }
    if !ok(19) { return None; }
    members := members + [("reconnectOnChangedSchema", Str("false"))];
    if !ok(20) { return None; }
    members := members + [("sleep-factor", Str("1.5"))];
    if !ok(21) { return None; }
    members := members + [("tcpOnly", Str("false"))];
    if !ok(22) { return None; }
    members := members + [("connectionTimeout", Str("20000"))];
    if !ok(23) { return None; }
    members := members + [("maxConnectionAttempts", Str("100"))];
    if !ok(24) { return None; }
    members := members + [("betweenAttemptsTimeout", Str("2000"))];
    if !ok(25) { return None; }
    members := members + [("keepaliveDelay", Str("120"))];
    extra := Some(members);
  }

  /** The object's keys come in the fixed order, "additionalFields" last. */
  lemma RegistrationFieldsOrder(hostname: string, ip: string, port: int, isTls: bool, mac: string, keyName: string)
    ensures Keys(RegistrationFields(hostname, ip, port, isTls, mac, keyName).members) == TOP_KEYS + ["additionalFields"]
  {
  }

  /** The members before "additionalFields" carry the fixed top-level keys. */
  lemma TopFieldsOrder(hostname: string, ip: string, port: int, mac: string)
    ensures Keys(TopFields(hostname, ip, port, mac)) == TOP_KEYS
  {
  }

  /** No key of the object repeats. */
  lemma RegistrationFieldsUnique(hostname: string, ip: string, port: int, isTls: bool, mac: string, keyName: string)
    ensures UniqueKeys(RegistrationFields(hostname, ip, port, isTls, mac, keyName).members)
  {
    RegistrationFieldsOrder(hostname, ip, port, isTls, mac, keyName);
    RegistrationKeysDistinct();
    DistinctKeysUnique(RegistrationFields(hostname, ip, port, isTls, mac, keyName).members);
  }

  /** The thirteen keys of the object are pairwise different strings. */
  lemma RegistrationKeysDistinct()
    ensures Distinct(TOP_KEYS + ["additionalFields"])
  {
  }

  /** The keys of "additionalFields" depend only on the protocol. */
  lemma AdditionalFieldsOrder(port: int, isTls: bool, keyName: string)
    ensures Keys(AdditionalFields(port, isTls, keyName)) == AdditionalKeys(isTls)
  {
  }

  /** No key of "additionalFields" repeats. */
  lemma AdditionalFieldsUnique(port: int, isTls: bool, keyName: string)
    ensures UniqueKeys(AdditionalFields(port, isTls, keyName))
  {
    AdditionalFieldsOrder(port, isTls, keyName);
    AdditionalKeysDistinct(isTls);
    DistinctKeysUnique(AdditionalFields(port, isTls, keyName));
  }

  /** The eleven keys of "additionalFields" are pairwise different strings. */
  lemma AdditionalKeysDistinct(isTls: bool)
    ensures Distinct(AdditionalKeys(isTls))
  {
  }

  /**
   * The values of the object's members: the fixed descriptive strings, the
   * drawn MAC address, the resolved address as oamV4IpAddress (even when it is
   * an IPv6 address), the interpolated serial number and the nested object.
   */
  lemma RegistrationFieldValues(hostname: string, ip: string, port: int, isTls: bool, mac: string, keyName: string)
    ensures var ms := RegistrationFields(hostname, ip, port, isTls, mac, keyName).members;
      && Lookup(ms, "pnfRegistrationFieldsVersion") == Some(Str("2.0"))
      && Lookup(ms, "lastServiceDate") == Some(Str("2019-08-16"))
      && Lookup(ms, "macAddress") == Some(Str(mac))
      && Lookup(ms, "manufactureDate") == Some(Str("2019-08-16"))
      && Lookup(ms, "modelNumber") == Some(Str("Simulated Device Melacon"))
      && Lookup(ms, "oamV4IpAddress") == Some(Str(ip))
      && Lookup(ms, "oamV6IpAddress") == Some(Str("0:0:0:0:0:ffff:a0a:011"))
      && Lookup(ms, "serialNumber") == Some(Str(hostname + "-" + ip + "-" + IntToDecimal(port) + "-Simulated Device Melacon"))
      && Lookup(ms, "softwareVersion") == Some(Str("2.3.5"))
      && Lookup(ms, "unitFamily") == Some(Str("Simulated Device"))
      && Lookup(ms, "unitType") == Some(Str("O-RAN-sim"))
      && Lookup(ms, "vendorName") == Some(Str("Melacon"))
      && Lookup(ms, "additionalFields") == Some(Obj(AdditionalFields(port, isTls, keyName)))
  {
    var ms := RegistrationFields(hostname, ip, port, isTls, mac, keyName).members;
    RegistrationFieldsUnique(hostname, ip, port, isTls, mac, keyName);
    LookupUnique(ms, 0); LookupUnique(ms, 1); LookupUnique(ms, 2); LookupUnique(ms, 3);
    LookupUnique(ms, 4); LookupUnique(ms, 5); LookupUnique(ms, 6); LookupUnique(ms, 7);
    LookupUnique(ms, 8); LookupUnique(ms, 9); LookupUnique(ms, 10); LookupUnique(ms, 11);
    LookupUnique(ms, 12);
  }

  /**
   * The values of "additionalFields" common to both protocols: the port in
   * decimal, the user "netconf" and the seven tuning values as strings.
   */
  lemma AdditionalFieldValues(port: int, isTls: bool, keyName: string)
    ensures var ms := AdditionalFields(port, isTls, keyName);
      && Lookup(ms, "oamPort") == Some(Str(IntToDecimal(port)))
      && Lookup(ms, "username") == Some(Str("netconf"))
      && Lookup(ms, "reconnectOnChangedSchema") == Some(Str("false"))
      && Lookup(ms, "sleep-factor") == Some(Str("1.5"))
      && Lookup(ms, "tcpOnly") == Some(Str("false"))
      && Lookup(ms, "connectionTimeout") == Some(Str("20000"))
      && Lookup(ms, "maxConnectionAttempts") == Some(Str("100"))
      && Lookup(ms, "betweenAttemptsTimeout") == Some(Str("2000"))
      && Lookup(ms, "keepaliveDelay") == Some(Str("120"))
  {
    var ms := AdditionalFields(port, isTls, keyName);
    AdditionalFieldsUnique(port, isTls, keyName);
    LookupUnique(ms, 0); LookupUnique(ms, 2);
    TuningFieldsReadBack(port, isTls, keyName);
    TuningFieldValues();
  }

  /** Each tuning key finds its value in the tuning list, past the four endpoint members. */
  lemma TuningFieldsReadBack(port: int, isTls: bool, keyName: string)
    ensures forall k :: k in TUNING_KEYS ==> Lookup(AdditionalFields(port, isTls, keyName), k) == Lookup(TUNING_FIELDS, k)
  {
    var front := AdditionalFields(port, isTls, keyName)[..4];
    assert AdditionalFields(port, isTls, keyName) == front + TUNING_FIELDS;
    assert Keys(front) == AdditionalKeys(isTls)[..4] by {
      AdditionalFieldsOrder(port, isTls, keyName);
    }
    AdditionalKeysDistinct(isTls);
    forall k | k in TUNING_KEYS ensures Lookup(front + TUNING_FIELDS, k) == Lookup(TUNING_FIELDS, k) {
      var i :| 0 <= i < |TUNING_KEYS| && TUNING_KEYS[i] == k;
      assert AdditionalKeys(isTls)[4 + i] == k;
      LookupSkipsPrefix(front, TUNING_FIELDS, k);
    }
  }

  /** The seven tuning values, identical for SSH and TLS. */
  lemma TuningFieldValues()
    ensures && Lookup(TUNING_FIELDS, "reconnectOnChangedSchema") == Some(Str("false"))
            && Lookup(TUNING_FIELDS, "sleep-factor") == Some(Str("1.5"))
            && Lookup(TUNING_FIELDS, "tcpOnly") == Some(Str("false"))
            && Lookup(TUNING_FIELDS, "connectionTimeout") == Some(Str("20000"))
            && Lookup(TUNING_FIELDS, "maxConnectionAttempts") == Some(Str("100"))
            && Lookup(TUNING_FIELDS, "betweenAttemptsTimeout") == Some(Str("2000"))
            && Lookup(TUNING_FIELDS, "keepaliveDelay") == Some(Str("120"))
  {
    assert Keys(TUNING_FIELDS) == TUNING_KEYS;
    DistinctKeysUnique(TUNING_FIELDS);
    LookupUnique(TUNING_FIELDS, 0); LookupUnique(TUNING_FIELDS, 1); LookupUnique(TUNING_FIELDS, 2);
    LookupUnique(TUNING_FIELDS, 3); LookupUnique(TUNING_FIELDS, 4); LookupUnique(TUNING_FIELDS, 5);
    LookupUnique(TUNING_FIELDS, 6);
  }

  /**
   * The protocol decides the credential: TLS names the key and has no
   * password, SSH gives the password "netconf" and has no key.
   */
  lemma CredentialsByProtocol(port: int, isTls: bool, keyName: string)
    ensures var ms := AdditionalFields(port, isTls, keyName);
      && Lookup(ms, "protocol") == Some(Str(if isTls then "TLS" else "SSH"))
      && Lookup(ms, "keyId") == (if isTls then Some(Str(keyName)) else None)
      && Lookup(ms, "password") == (if isTls then None else Some(Str("netconf")))
  {
    var ms := AdditionalFields(port, isTls, keyName);
    AdditionalFieldsUnique(port, isTls, keyName);
    LookupUnique(ms, 1);
    LookupUnique(ms, 3);
    if isTls {
      TlsHasNoPassword(port, keyName);
    } else {
      SshHasNoKeyId(port, keyName);
    }
  }

  lemma TlsHasNoPassword(port: int, keyName: string)
    ensures Lookup(AdditionalFields(port, true, keyName), "password") == None
  {
    AdditionalFieldsOrder(port, true, keyName);
    assert "password" !in AdditionalKeys(true);
  }

  lemma SshHasNoKeyId(port: int, keyName: string)
    ensures Lookup(AdditionalFields(port, false, keyName), "keyId") == None
  {
    AdditionalFieldsOrder(port, false, keyName);
    assert "keyId" !in AdditionalKeys(false);
  }

  /** The SSH and TLS objects for one port differ only in the protocol and the credential member. */
  lemma ProtocolsDifferOnlyInCredentials(port: int, keyName: string)
    ensures var tls, ssh := AdditionalFields(port, true, keyName), AdditionalFields(port, false, keyName);
      && |tls| == |ssh|
      && (forall i :: 0 <= i < |tls| && i != 1 && i != 3 ==> tls[i] == ssh[i])
      && tls[1] != ssh[1] && tls[3] != ssh[3]
  {
  }

  /** The oamPort text reads back as the port it was printed from. */
  lemma OamPortReadsBack(port: int, isTls: bool, keyName: string)
    ensures Lookup(AdditionalFields(port, isTls, keyName), "oamPort") == Some(Str(IntToDecimal(port)))
    ensures ParseDecimal(IntToDecimal(port)) == Some(port)
  {
    AdditionalFieldValues(port, isTls, keyName);
    DecimalRoundTrip(port);
  }

  /** Two endpoints of one host and address never share a serial number. */
  lemma SerialNumbersDistinct(hostname: string, ip: string, p: int, q: int)
    requires p != q
    ensures SerialNumber(hostname, ip, p) != SerialNumber(hostname, ip, q)
  {
    var prefix, suffix := hostname + "-" + ip + "-", "-Simulated Device Melacon";
    var a, b := IntToDecimal(p), IntToDecimal(q);
    if SerialNumber(hostname, ip, p) == SerialNumber(hostname, ip, q) {
      assert prefix + a + suffix == SerialNumber(hostname, ip, p);
      assert prefix + b + suffix == SerialNumber(hostname, ip, q);
      assert |a| == |b|;
      assert a == (prefix + a + suffix)[|prefix|..|prefix| + |a|];
      assert b == (prefix + b + suffix)[|prefix|..|prefix| + |b|];
      DecimalInjective(p, q);
    }
  }

  /** The resolved address, whichever family it is, is what oamV4IpAddress carries. */
  lemma AddressField(hostname: string, ip: string, port: int, isTls: bool, mac: string, keyName: string)
    ensures Lookup(RegistrationFields(hostname, ip, port, isTls, mac, keyName).members, "oamV4IpAddress") == Some(Str(ip))
  {
    var ms := RegistrationFields(hostname, ip, port, isTls, mac, keyName).members;
    RegistrationFieldsUnique(hostname, ip, port, isTls, mac, keyName);
    LookupUnique(ms, 5);
  }

  /**
   * The one failure the builder does not check: when attaching
   * "additionalFields" fails and everything else succeeds, the builder
   * returns an object without "additionalFields" rather than null.
   */
  lemma UncheckedAttachDropsAdditionalFields(hostname: string, ip: string, port: int, isTls: bool, keyName: string,
                                             mac: string, ok: nat -> bool)
    requires CheckedStepsSucceed(ok) && !ok(ATTACH_ADDITIONAL_STEP)
    ensures var r := BuiltFields(hostname, ip, port, isTls, keyName, Some(mac), ok);
      && r.Some? && r.value.Obj?
      && Keys(r.value.members) == TOP_KEYS
      && Lookup(r.value.members, "additionalFields") == None
  {
    TopFieldsOrder(hostname, ip, port, mac);
    assert "additionalFields" !in TOP_KEYS;
  }

  /** When every operation succeeds, including the unchecked attach, the builder returns the complete object. */
  lemma CompleteBuild(hostname: string, ip: string, port: int, isTls: bool, keyName: string,
                      mac: Option<string>, ok: nat -> bool)
    requires mac.Some? && CheckedStepsSucceed(ok) && ok(ATTACH_ADDITIONAL_STEP)
    ensures BuiltFields(hostname, ip, port, isTls, keyName, mac, ok)
         == Some(RegistrationFields(hostname, ip, port, isTls, mac.value, keyName))
  {
  }
}
