/**
 A parsed AmneziaWG configuration and the fields it is made of (pkg/amnezia/config.go). The two
 text formats that name these fields, the .conf file and the UAPI message, are in ConfParser and
 UapiFormat.
 */
module Settings {
  import opened Text

  datatype Settings = Settings(
    privateKey: string,
    address: string,
    dns: string,
    mtu: GoInt,
    listenPort: GoInt,
    jc: GoInt,
    jmin: GoInt,
    jmax: GoInt,
    s1: GoInt,
    s2: GoInt,
    s3: GoInt,
    s4: GoInt,
    h1: string,
    h2: string,
    h3: string,
    h4: string,
    i1: string,
    i2: string,
    i3: string,
    i4: string,
    i5: string,
    peerPublicKey: string,
    peerPSK: string,
    endpoint: string,
    persistentKA: GoInt,
    allowedIPs: seq<string>)

  const EMPTY := Settings(
    "", "", "", 0, 0, 0, 0, 0, 0, 0, 0, 0, "", "", "", "", "", "", "", "", "", "", "", "", 0, [])

  // Every field but the list of allowed addresses.
  datatype Field =
    | PrivateKey | Address | DNS | MTU | ListenPort | Jc | Jmin | Jmax | S1 | S2 | S3 | S4
    | H1 | H2 | H3 | H4 | I1 | I2 | I3 | I4 | I5 | PeerPublicKey | PeerPSK | Endpoint | PersistentKA

  predicate IsInt(f: Field) {
    f == MTU || f == ListenPort || f == Jc || f == Jmin || f == Jmax
    || f == S1 || f == S2 || f == S3 || f == S4 || f == PersistentKA
  }

  function GetInt(c: Settings, f: Field): GoInt
    requires IsInt(f)
  {
    match f
    case MTU => c.mtu
    case ListenPort => c.listenPort
    case Jc => c.jc
    case Jmin => c.jmin
    case Jmax => c.jmax
    case S1 => c.s1
    case S2 => c.s2
    case S3 => c.s3
    case S4 => c.s4
    case PersistentKA => c.persistentKA
  }

  function SetInt(c: Settings, f: Field, v: GoInt): Settings
    requires IsInt(f)
  {
    match f
    case MTU => c.(mtu := v)
    case ListenPort => c.(listenPort := v)
    case Jc => c.(jc := v)
    case Jmin => c.(jmin := v)
    case Jmax => c.(jmax := v)
    case S1 => c.(s1 := v)
    case S2 => c.(s2 := v)
    case S3 => c.(s3 := v)
    case S4 => c.(s4 := v)
    case PersistentKA => c.(persistentKA := v)
  }

  function GetString(c: Settings, f: Field): string
    requires !IsInt(f)
  {
    match f
    case PrivateKey => c.privateKey
    case Address => c.address
    case DNS => c.dns
    case H1 => c.h1
    case H2 => c.h2
    case H3 => c.h3
    case H4 => c.h4
    case I1 => c.i1
    case I2 => c.i2
    case I3 => c.i3
    case I4 => c.i4
    case I5 => c.i5
    case PeerPublicKey => c.peerPublicKey
    case PeerPSK => c.peerPSK
    case Endpoint => c.endpoint
  }

  function SetString(c: Settings, f: Field, v: string): Settings
    requires !IsInt(f)
  {
    match f
    case PrivateKey => c.(privateKey := v)
    case Address => c.(address := v)
    case DNS => c.(dns := v)
    case H1 => c.(h1 := v)
    case H2 => c.(h2 := v)
    case H3 => c.(h3 := v)
    case H4 => c.(h4 := v)
    case I1 => c.(i1 := v)
    case I2 => c.(i2 := v)
    case I3 => c.(i3 := v)
    case I4 => c.(i4 := v)
    case I5 => c.(i5 := v)
    case PeerPublicKey => c.(peerPublicKey := v)
    case PeerPSK => c.(peerPSK := v)
    case Endpoint => c.(endpoint := v)
  }

  lemma SetGetInt(c: Settings, f: Field, v: GoInt, g: Field)
    requires IsInt(f) && IsInt(g)
    ensures GetInt(SetInt(c, f, v), g) == if g == f then v else GetInt(c, g)
  {
  }

  lemma SetIntKeeps(c: Settings, f: Field, v: GoInt)
    requires IsInt(f)
    ensures forall g: Field :: !IsInt(g) ==> GetString(SetInt(c, f, v), g) == GetString(c, g)
    ensures SetInt(c, f, v).allowedIPs == c.allowedIPs
  {
  }

  lemma SetGetString(c: Settings, f: Field, v: string, g: Field)
    requires !IsInt(f) && !IsInt(g)
    ensures GetString(SetString(c, f, v), g) == if g == f then v else GetString(c, g)
  {
  }

  lemma SetStringKeeps(c: Settings, f: Field, v: string)
    requires !IsInt(f)
    ensures forall g: Field :: IsInt(g) ==> GetInt(SetString(c, f, v), g) == GetInt(c, g)
    ensures SetString(c, f, v).allowedIPs == c.allowedIPs
  {
  }
}
