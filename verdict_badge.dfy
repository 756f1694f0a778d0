/**
 * The shared verdict badge (frontend/components/VerdictBadge.tsx): a
 * spinner while processing, "No Analysis" without a verdict, otherwise
 * the verdict's icon, caption and colours at one of three sizes, with the
 * confidence as a percentage whenever one is given.
 */
module VerdictBadge {
  import opened Json
  import opened Text
  import Schemas
  import BrowsePage

  datatype Size = Sm | Md | Lg

  datatype Icon = CheckCircle | XCircle | AlertTriangle | HelpCircle | Clock

  /** What `getVerdictConfig` returns. */
  datatype Config = Config(icon: Icon, caption: string, className: string, color: string)

  const UncertainConfig := Config(HelpCircle, "Uncertain", "verdict-uncertain", "text-slate-700")

  /** The four known verdicts have their own look; any other text looks uncertain. */
  function VerdictConfig(verdict: string): (r: Config)
    ensures verdict == "true" <==> r.caption == "True"
    ensures verdict == "false" <==> r.caption == "False"
    ensures verdict == "misleading" <==> r.caption == "Misleading"
    ensures verdict !in {"true", "false", "misleading"} <==> r == UncertainConfig
    ensures r.caption in {"True", "False", "Misleading", "Uncertain"}
  {
    if verdict == "true" then Config(CheckCircle, "True", "verdict-true", "text-success-700")
    else if verdict == "false" then Config(XCircle, "False", "verdict-false", "text-danger-700")
    else if verdict == "misleading" then Config(AlertTriangle, "Misleading", "verdict-misleading", "text-warning-700")
    else UncertainConfig
  }

  /** `sizeClasses[size]`. */
  function SizeClasses(size: Size): string
  {
    match size
    case Sm => "px-2 py-1 text-xs"
    case Md => "px-3 py-1 text-sm"
    case Lg => "px-4 py-2 text-base"
  }

  /** `iconSizes[size]`. */
  function IconSize(size: Size): string
  {
    match size
    case Sm => "w-3 h-3"
    case Md => "w-4 h-4"
    case Lg => "w-5 h-5"
  }

  /** Each size has its own padding and text classes and its own icon size. */
  lemma SizesDistinct(a: Size, b: Size)
    ensures SizeClasses(a) == SizeClasses(b) <==> a == b
    ensures IconSize(a) == IconSize(b) <==> a == b
  {
    if a != b {
      assert SizeClasses(a)[3] != SizeClasses(b)[3];
      assert IconSize(a)[2] != IconSize(b)[2];
    }
  }

  /** The component's props; `None` is an omitted prop (`null` for the verdict too). */
  datatype Props = Props(verdict: Option<string>, confidence: Option<real>, processing: Option<bool>, size: Option<Size>)

  /** What is drawn. `percent` is the `(NN%)` text, empty when no confidence is shown. */
  datatype Badge =
    | ProcessingBadge
    | NoAnalysisBadge
    | VerdictShown(config: Config, sizeClass: string, iconSize: string, percent: string)

  /** `(<Math.round(confidence * 100)>%)`. */
  function PercentText(confidence: real): (r: string)
  {
    "(" + BrowsePage.IntToString(BrowsePage.RoundHalfUp(confidence * 100.0)) + "%)"
  }

  /** Rendering the props. */
  function Render(p: Props): (r: Badge)
    ensures p.processing == Some(true) <==> r == ProcessingBadge
    ensures p.processing != Some(true) && (p.verdict.None? || p.verdict.value == "") <==> r == NoAnalysisBadge
    ensures r.VerdictShown? ==> (p.verdict.Some? && r.config == VerdictConfig(p.verdict.value))
    ensures r.VerdictShown? ==> (var size := if p.size.Some? then p.size.value else Md;
      r.sizeClass == SizeClasses(size) && r.iconSize == IconSize(size))
    ensures r.VerdictShown? ==> (r.percent == "" <==> p.confidence.None?)
    ensures r.VerdictShown? && p.confidence.Some? ==> r.percent == PercentText(p.confidence.value)
  {
    var processing := if p.processing.Some? then p.processing.value else false;
    var size := if p.size.Some? then p.size.value else Md;
    if processing then ProcessingBadge
    else if p.verdict.None? || p.verdict.value == "" then NoAnalysisBadge
    else
      VerdictShown(VerdictConfig(p.verdict.value), SizeClasses(size), IconSize(size),
                   if p.confidence.Some? then PercentText(p.confidence.value) else "")
  }

  /** A zero confidence is shown as "(0%)", where the browse page's inline badge shows nothing. */
  lemma ZeroConfidenceShown(verdict: string, size: Option<Size>)
    requires verdict != ""
    ensures Render(Props(Some(verdict), Some(0.0), None, size)).percent == "(0%)"
    ensures BrowsePage.InlineConfidenceText(Some(0.0)) == ""
  {
    assert BrowsePage.RoundHalfUp(0.0 * 100.0) == 0;
  }

  /**
   * For every verdict the backend stores, the badge's caption is the one the
   * browse page's inline badge shows: the verdict with a capital first letter.
   */
  lemma LabelsAgreeWithInlineBadge(v: Schemas.Verdict)
    ensures VerdictConfig(Schemas.VerdictValue(v)).caption == BrowsePage.InlineBadgeText(Some(Schemas.VerdictValue(v)))
  {
    var s := Schemas.VerdictValue(v);
    var t := BrowsePage.InlineBadgeText(Some(s));
    assert |t| == |s| && t[0] == UpperChar(s[0]) && t[1..] == s[1..];
    var caption := VerdictConfig(s).caption;
    assert |caption| == |s| && caption[0] == UpperChar(s[0]) && caption[1..] == s[1..];
    assert caption == [caption[0]] + caption[1..];
    assert t == [t[0]] + t[1..];
  }

  /** Different stored verdicts look different. */
  lemma KnownVerdictsDistinct(a: Schemas.Verdict, b: Schemas.Verdict)
    ensures VerdictConfig(Schemas.VerdictValue(a)) == VerdictConfig(Schemas.VerdictValue(b)) <==> a == b
  {
  }
}
