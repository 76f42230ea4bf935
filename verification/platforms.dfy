/** The five target platforms and the per-dialect naming table the passes consult. */
module Platforms {
  import opened Results
  import opened Attributes

  datatype Platform = Web | Weex | Wx | Alipay | Baidu

  /** The three mini-program targets, which share most binding conventions. */
  predicate IsMiniapp(p: Platform) {
    p.Wx? || p.Alipay? || p.Baidu?
  }

  /** The identifier a build names its target by. */
  function Name(p: Platform): string {
    match p
    case Web => "web"
    case Weex => "weex"
    case Wx => "wx"
    case Alipay => "alipay"
    case Baidu => "baidu"
  }

  /** The platform an identifier names; an unknown identifier is a configuration error. */
  function Parse(s: string): (r: Option<Platform>)
    ensures r.Some? ==> Name(r.value) == s
    ensures r.None? ==> forall p :: Name(p) != s
  {
    if s == "web" then Some(Web)
    else if s == "weex" then Some(Weex)
    else if s == "wx" then Some(Wx)
    else if s == "alipay" then Some(Alipay)
    else if s == "baidu" then Some(Baidu)
    else None
  }

  lemma ParseName(p: Platform)
    ensures Parse(Name(p)) == Some(p)
  {
  }

  /** How one miniapp dialect spells control directives and the input event. */
  datatype Dialect = Dialect(
    prefix: string,       // attribute prefix of if/elif/else/for
    interpolates: bool,   // whether if/for values are brace-interpolated
    inputEvent: string)   // attribute that binds the input event

  function DialectOf(p: Platform): Dialect
    requires IsMiniapp(p)
  {
    match p
    case Wx => Dialect("wx:", true, "bindinput")
    case Alipay => Dialect("a:", true, "bindInput")
    case Baidu => Dialect("s-", false, "bindinput")
  }

  /** A control-directive value (if/elif/else condition, for source) in the dialect's encoding. */
  function Interpolate(p: Platform, e: string): string
    requires IsMiniapp(p)
  {
    if DialectOf(p).interpolates then Braces(e) else e
  }

  /** Reads back a value written by `Interpolate`. */
  function Uninterpolate(p: Platform, s: string): string
    requires IsMiniapp(p)
  {
    if DialectOf(p).interpolates then
      match Unbrace(s)
      case Some(e) => e
      case None => s
    else s
  }

  lemma UninterpolateInterpolate(p: Platform, e: string)
    requires IsMiniapp(p)
    ensures Uninterpolate(p, Interpolate(p, e)) == e
  {
    if DialectOf(p).interpolates {
      UnbraceBraces(e);
    }
  }
}
