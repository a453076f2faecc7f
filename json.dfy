/**
 * The JSON documents the service answers with. An object is a map from
 * member names to values, as a Python dict is. Member names are drawn from
 * the fixed vocabulary of this service, `Key`; `Name` gives each one's text.
 */
module JsonValue {
  import opened Base

  datatype Key =
    | Service | System | Runtime | Request | Endpoints
    | NameKey | Version | Description | Framework
    | Hostname | Platform | PlatformVersion | Architecture | CpuCount | PythonVersion
    | UptimeSeconds | UptimeHuman | CurrentTime | Timezone
    | ClientIp | UserAgent | Method | Path
    | Status | Timestamp
    | Message | Error | Detail

  /** The member name as it appears in the serialised document. */
  function Name(k: Key): string {
    match k
    case Service => "service"
    case System => "system"
    case Runtime => "runtime"
    case Request => "request"
    case Endpoints => "endpoints"
    case NameKey => "name"
    case Version => "version"
    case Description => "description"
    case Framework => "framework"
    case Hostname => "hostname"
    case Platform => "platform"
    case PlatformVersion => "platform_version"
    case Architecture => "architecture"
    case CpuCount => "cpu_count"
    case PythonVersion => "python_version"
    case UptimeSeconds => "uptime_seconds"
    case UptimeHuman => "uptime_human"
    case CurrentTime => "current_time"
    case Timezone => "timezone"
    case ClientIp => "client_ip"
    case UserAgent => "user_agent"
    case Method => "method"
    case Path => "path"
    case Status => "status"
    case Timestamp => "timestamp"
    case Message => "message"
    case Error => "error"
    case Detail => "detail"
  }

  /** Length and first two characters of a member name. */
  function Signature(s: string): (int, char, char)
  {
    if |s| < 2 then (|s|, ' ', ' ') else (|s|, s[0], s[1])
  }

  /** The key whose member name has the given signature, if any. */
  function KeyOfSignature(sig: (int, char, char)): Option<Key>
  {
    match sig.0
    case 4 =>
      if sig.1 == 'n' then Some(NameKey)
      else if sig.1 == 'p' then Some(Path)
      else None
    case 5 => if sig.1 == 'e' then Some(Error) else None
    case 6 =>
      if sig.1 == 's' && sig.2 == 'y' then Some(System)
      else if sig.1 == 'm' then Some(Method)
      else if sig.1 == 's' && sig.2 == 't' then Some(Status)
      else if sig.1 == 'd' then Some(Detail)
      else None
    case 7 =>
      if sig.1 == 's' then Some(Service)
      else if sig.1 == 'r' && sig.2 == 'u' then Some(Runtime)
      else if sig.1 == 'r' && sig.2 == 'e' then Some(Request)
      else if sig.1 == 'v' then Some(Version)
      else if sig.1 == 'm' then Some(Message)
      else None
    case 8 =>
      if sig.1 == 'h' then Some(Hostname)
      else if sig.1 == 'p' then Some(Platform)
      else if sig.1 == 't' then Some(Timezone)
      else None
    case 9 =>
      if sig.1 == 'e' then Some(Endpoints)
      else if sig.1 == 'f' then Some(Framework)
      else if sig.1 == 'c' && sig.2 == 'p' then Some(CpuCount)
      else if sig.1 == 'c' && sig.2 == 'l' then Some(ClientIp)
      else if sig.1 == 't' then Some(Timestamp)
      else None
    case 10 => if sig.1 == 'u' then Some(UserAgent) else None
    case 11 => if sig.1 == 'd' then Some(Description) else None
    case 12 =>
      if sig.1 == 'a' then Some(Architecture)
      else if sig.1 == 'u' then Some(UptimeHuman)
      else if sig.1 == 'c' then Some(CurrentTime)
      else None
    case 14 =>
      if sig.1 == 'p' then Some(PythonVersion)
      else if sig.1 == 'u' then Some(UptimeSeconds)
      else None
    case 16 => if sig.1 == 'p' then Some(PlatformVersion) else None
    case _ => None
  }

  /** The signature of a key's member name already identifies the key. */
  lemma SignatureIdentifiesKey(k: Key)
    ensures KeyOfSignature(Signature(Name(k))) == Some(k)
  {
    match k
    case Service => {}
    case System => {}
    case Runtime => {}
    case Request => {}
    case Endpoints => {}
    case NameKey => {}
    case Version => {}
    case Description => {}
    case Framework => {}
    case Hostname => {}
    case Platform => {}
    case PlatformVersion => {}
    case Architecture => {}
    case CpuCount => {}
    case PythonVersion => {}
    case UptimeSeconds => {}
    case UptimeHuman => {}
    case CurrentTime => {}
    case Timezone => {}
    case ClientIp => {}
    case UserAgent => {}
    case Method => {}
    case Path => {}
    case Status => {}
    case Timestamp => {}
    case Message => {}
    case Error => {}
    case Detail => {}
  }

  /** Distinct keys are distinct member names, so a key set is a set of member names. */
  lemma NamesDistinct(a: Key, b: Key)
    ensures Name(a) == Name(b) <==> a == b
  {
    SignatureIdentifiesKey(a);
    SignatureIdentifiesKey(b);
  }

  datatype Json =
    | JNull
    | JBool(b: bool)
    | JInt(i: int)
    | JStr(s: string)
    | JArray(items: seq<Json>)
    | JObject(fields: map<Key, Json>)

  /** `data[key]` on an object; `None` on anything else or a missing key. */
  function Get(j: Json, key: Key): Option<Json>
  {
    if j.JObject? && key in j.fields then Some(j.fields[key]) else None
  }

  /** `data[section][key]`. */
  function Field(j: Json, section: Key, key: Key): Option<Json>
  {
    match Get(j, section)
    case None => None
    case Some(child) => Get(child, key)
  }

  /** The string at `data[key]`, when there is one. */
  function TextOf(j: Json, key: Key): Option<string>
  {
    match Get(j, key)
    case Some(JStr(t)) => Some(t)
    case _ => None
  }

  /** The string at `data[section][key]`, when there is one. */
  function TextAt(j: Json, section: Key, key: Key): Option<string>
  {
    match Field(j, section, key)
    case Some(JStr(t)) => Some(t)
    case _ => None
  }

  lemma TextFromField(j: Json, section: Key, key: Key, t: string)
    requires Field(j, section, key) == Some(JStr(t))
    ensures TextAt(j, section, key) == Some(t)
  {
  }

  lemma TextFromGet(j: Json, key: Key, t: string)
    requires Get(j, key) == Some(JStr(t))
    ensures TextOf(j, key) == Some(t)
  {
  }
}
