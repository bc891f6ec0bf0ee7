/**
 * MessageService.Mode: how a boss message is delivered, and the tolerant
 * parse of its configured name with a fallback.
 */
module MessageService {
  import opened Wrappers
  import opened JavaText

  datatype Mode = CHAT | ACTIONBAR | TITLE

  /** `values()`, in declaration order. */
  const AllModes: seq<Mode> := [CHAT, ACTIONBAR, TITLE]

  function ModeName(m: Mode): string {
    match m
    case CHAT => "CHAT"
    case ACTIONBAR => "ACTIONBAR"
    case TITLE => "TITLE"
  }

  /** `Mode.valueOf`: the constant of exactly that name; None stands for the exception. */
  function ModeValueOf(key: string): (r: Option<Mode>)
    ensures r.Some? ==> ModeName(r.value) == key
  {
    LookupMode(AllModes, key)
  }

  function LookupMode(ms: seq<Mode>, key: string): (r: Option<Mode>)
    ensures r.Some? ==> ModeName(r.value) == key && r.value in ms
    ensures r.None? ==> forall m :: m in ms ==> ModeName(m) != key
  {
    if ms == [] then None
    else if ModeName(ms[0]) == key then Some(ms[0])
    else LookupMode(ms[1..], key)
  }

  /**
   * `Mode.fromConfig(raw, fallback)`: null gives the fallback; otherwise the
   * trimmed, upper-cased text names the mode, and anything else falls back.
   */
  function FromConfig(raw: Option<string>, fallback: Mode): (r: Mode)
    ensures raw.None? ==> r == fallback
    ensures raw.Some? && r != fallback ==> ModeName(r) == ToUpper(Trim(raw.value))
  {
    if raw.None? then fallback
    else
      match ModeValueOf(ToUpper(Trim(raw.value)))
      case Some(m) => m
      case None => fallback
  }

  lemma {:induction false} LookupModeName(ms: seq<Mode>, m: Mode)
    requires m in ms
    ensures LookupMode(ms, ModeName(m)) == Some(m)
  {
    if ms[0] != m {
      LookupModeName(ms[1..], m);
    }
  }

  /** A text that names no mode, after trimming and upper-casing, gives the fallback. */
  lemma FromConfigUnknown(raw: string, fallback: Mode)
    requires forall m :: ModeName(m) != ToUpper(Trim(raw))
    ensures FromConfig(Some(raw), fallback) == fallback
  {
  }

  /**
   * Surrounding padding and letter case are ignored: any spelling whose
   * upper-case form is a mode's name gives that mode, whatever the fallback.
   */
  lemma FromConfigTolerant(m: Mode, fallback: Mode, w1: string, s: string, w2: string)
    requires IsTrimPad(w1) && IsTrimPad(w2)
    requires ToUpper(s) == ModeName(m)
    ensures FromConfig(Some(w1 + s + w2), fallback) == m
  {
    var n := ModeName(m);
    ToUpperAt(s);
    assert UpperChar(s[0]) == n[0] && UpperChar(s[|s| - 1]) == n[|n| - 1];
    TrimPadded(w1, s, w2);
    LookupModeName(AllModes, m);
  }

  /** Every mode reads back from its own name. */
  lemma FromConfigName(m: Mode, fallback: Mode)
    ensures FromConfig(Some(ModeName(m)), fallback) == m
  {
    var n := ModeName(m);
    ModeNameShape(m);
    ToUpperKeeps(n);
    TrimKeeps(n);
    LookupModeName(AllModes, m);
  }

  lemma ModeNameShape(m: Mode)
    ensures IsUpperForm(ModeName(m)) && |ModeName(m)| > 0
    ensures ModeName(m)[0] > ' ' && ModeName(m)[|ModeName(m)| - 1] > ' '
  {
    match m
    case CHAT =>
    case ACTIONBAR =>
    case TITLE =>
  }
}
