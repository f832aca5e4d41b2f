/**
 * `pathlib.Path(p).name` and `.suffix` for POSIX paths: the last component,
 * and its extension (from its last dot) when the dot neither starts nor ends
 * the name.
 */
module Paths {
  import opened Text

  /** `s.rfind(c)`: the position of the last `c` in `s`, or -1. */
  function LastIndex(s: string, c: char): (r: int)
    ensures -1 <= r < |s|
    ensures r >= 0 ==> s[r] == c
    ensures forall j :: r < j < |s| ==> s[j] != c
  {
    if s == [] then -1
    else if s[|s| - 1] == c then |s| - 1
    else LastIndex(s[..|s| - 1], c)
  }

  /** The path without its trailing separators. */
  function StripSlashes(p: string): (r: string)
    ensures |r| <= |p| && r == p[..|r|]
    ensures r != [] ==> r[|r| - 1] != '/'
  {
    if p != [] && p[|p| - 1] == '/' then StripSlashes(p[..|p| - 1]) else p
  }

  /** `Path(p).name`: the last non-empty component. */
  function Name(p: string): (r: string)
    ensures '/' !in r
  {
    var q := StripSlashes(p);
    q[LastIndex(q, '/') + 1..]
  }

  /** `Path(p).suffix`. */
  function Suffix(p: string): (r: string)
    ensures r == [] || (|r| >= 2 && r[0] == '.' && '.' !in r[1..] && '/' !in r)
    ensures r != [] ==> |r| < |Name(p)| && r == Name(p)[|Name(p)| - |r|..]
  {
    var n := Name(p);
    var i := LastIndex(n, '.');
    if 0 < i < |n| - 1 then
      SuffixTail(n, i);
      n[i..]
    else []
  }

  /** The part of a name from its last dot on. */
  lemma SuffixTail(n: string, i: nat)
    requires 0 < i < |n| - 1 && '/' !in n && n[i] == '.'
    requires forall j :: i < j < |n| ==> n[j] != '.'
    ensures |n[i..]| >= 2 && n[i..][0] == '.' && '.' !in n[i..][1..] && '/' !in n[i..]
    ensures |n[i..]| < |n| && n[i..] == n[|n| - |n[i..]|..]
  {
    assert n[i..][1..] == n[i + 1..];
  }

  /** A file name with a non-empty stem and an extension has that extension as its suffix. */
  lemma SuffixOfName(dir: string, stem: string, ext: string)
    requires stem != [] && '/' !in stem && '/' !in ext
    requires |ext| >= 2 && ext[0] == '.' && '.' !in ext[1..]
    ensures Suffix(dir + "/" + stem + ext) == ext
  {
    var p := dir + "/" + stem + ext;
    var name := stem + ext;
    assert StripSlashes(p) == p;
    assert p == (dir + "/") + name;
    assert LastIndex(p, '/') == |dir| by {
      assert p[|dir|] == '/';
      forall j | |dir| < j < |p| ensures p[j] != '/' {
        assert p[j] == name[j - |dir| - 1];
      }
    }
    assert Name(p) == name;
    assert LastIndex(name, '.') == |stem| by {
      assert name[|stem|] == '.';
      forall j | |stem| < j < |name| ensures name[j] != '.' {
        assert name[j] == ext[1..][j - |stem| - 1];
      }
    }
    assert name[|stem|..] == ext;
  }

  /** A name that starts with its only dot (".bashrc") or ends with a dot has no suffix. */
  lemma NoSuffixForHiddenOrTrailingDot(dir: string, name: string)
    requires '/' !in name && name != []
    requires (name[0] == '.' && '.' !in name[1..]) || name[|name| - 1] == '.'
    ensures Suffix(dir + "/" + name) == []
  {
    var p := dir + "/" + name;
    assert StripSlashes(p) == p;
    assert LastIndex(p, '/') == |dir| by {
      assert p[|dir|] == '/';
      forall j | |dir| < j < |p| ensures p[j] != '/' {
        assert p[j] == name[j - |dir| - 1];
      }
    }
    assert Name(p) == name;
    var i := LastIndex(name, '.');
    if name[|name| - 1] != '.' {
      forall j | 0 < j < |name| ensures name[j] != '.' {
        assert name[j] == name[1..][j - 1];
      }
    }
  }

  /** The extension the savers dispatch on: the suffix, lower-cased. */
  function Extension(p: string): string {
    Lower(Suffix(p))
  }

  /** The extension of a file name with a non-empty stem is its extension, lower-cased. */
  lemma ExtensionOfName(dir: string, stem: string, ext: string)
    requires stem != [] && '/' !in stem && '/' !in ext
    requires |ext| >= 2 && ext[0] == '.' && '.' !in ext[1..]
    ensures Extension(dir + "/" + stem + ext) == Lower(ext)
  {
    SuffixOfName(dir, stem, ext);
  }

  lemma PngSpelling()
    ensures '.' !in ".PNG"[1..] && Lower(".PNG") == ".png"
  {
  }

  /** Upper-case extensions are dispatched as lower-case ones: "X.PNG" has ".png". */
  lemma UpperCaseExtension(dir: string, stem: string)
    requires stem != [] && '/' !in stem
    ensures Extension(dir + "/" + stem + ".PNG") == ".png"
  {
    PngSpelling();
    ExtensionOfName(dir, stem, ".PNG");
  }
}

/** The export calls on a figure and their outcomes, which come from Plotly and Kaleido. */
module Exports {

  /** One external call the savers make. */
  datatype Call =
    | WriteImage(path: string)
    | WriteHtmlCdn(path: string)
    | WriteJson(path: string)
    | InstallChrome

  /** How an external call ended: normally, with a RuntimeError, or with another exception. */
  datatype Outcome = Done | RuntimeFailure(message: string) | OtherFailure(message: string)

  /** The suffixes that export a static image. */
  const ImageSuffixes := [".png", ".jpg", ".jpeg", ".webp", ".svg", ".pdf"]

  datatype Format = Image | Html | Json | Unsupported

  /** The outcome of the `i`-th external call; calls past the given ones end normally. */
  function Nth(oracle: seq<Outcome>, i: nat): Outcome {
    if i < |oracle| then oracle[i] else Done
  }

  /** How many `write_image` calls a log holds. */
  function ImageWrites(calls: seq<Call>): (n: nat)
    ensures n <= |calls|
  {
    if calls == [] then 0
    else (if calls[0].WriteImage? then 1 else 0) + ImageWrites(calls[1..])
  }
}

/** `save` of the Plotly engine: dispatch, one retry after installing Chrome, every failure wrapped. */
module PlotlySaver {
  import opened Values
  import opened Text
  import opened Paths
  import opened Exports

  /** The extensions this saver handles: images and HTML; `.json` is not one of them. */
  function FormatOf(ext: string): (f: Format)
    ensures f.Image? <==> ext in ImageSuffixes
    ensures f.Html? <==> ext == ".html"
    ensures !f.Json?
  {
    if ext in ImageSuffixes then Image
    else if ext == ".html" then Html
    else Unsupported
  }

  /** The message a missing Chrome produces, which triggers the automatic install. */
  const ChromeMissing := "Kaleido requires Google Chrome"

  const InstallFailedMessage :=
    "[VueCore] Failed to install Chrome automatically. Please install it manually or run `plotly_get_chrome`."

  /** What a wrapped failure was raised from. */
  datatype Cause =
    | UnsupportedFormat(message: string)
    | ExportFailed(outcome: Outcome)
    | InstallFailed(message: string, from: Outcome)

  /** `RuntimeError("[VueCore] Failed to save plot: <path>") from cause`. */
  datatype SaveError = SaveError(message: string, cause: Cause)

  function FailureMessage(path: string): string {
    "[VueCore] Failed to save plot: " + path
  }

  /** `f"Unsupported file format: '{suffix}'. Supported formats: ..."`. */
  function UnsupportedMessage(ext: string): string {
    "Unsupported file format: '" + ext + "'. Supported formats: .png, .svg, .pdf, .html, .json"
  }

  /**
   * What the image branch does: one `write_image`; after a RuntimeError
   * saying Chrome is missing, one install and, if that succeeds, one retry,
   * whose failures are reported as a failed install; any other failure of the
   * first write is passed on as it is.
   */
  predicate ImageBranch(path: string, oracle: seq<Outcome>, r: Result<(), Cause>, calls: seq<Call>) {
    var first := Nth(oracle, 0);
    var retried := first.RuntimeFailure? && Contains(first.message, ChromeMissing);
    && (first.Done? ==> calls == [WriteImage(path)] && r.Ok?)
    && (!first.Done? && !retried ==> calls == [WriteImage(path)] && r == Err(ExportFailed(first)))
    && (retried && Nth(oracle, 1).Done? ==> calls == [WriteImage(path), InstallChrome, WriteImage(path)])
    && (retried && !Nth(oracle, 1).Done? ==> calls == [WriteImage(path), InstallChrome])
    && (retried ==> (r.Ok? <==> Nth(oracle, 1).Done? && Nth(oracle, 2).Done?))
    && (retried && r.Err? ==> r.error.InstallFailed? && r.error.message == InstallFailedMessage)
  }

  /**
   * The image branch: `write_image`, and, when it fails with a RuntimeError
   * saying Chrome is missing, one install and one retry. Any failure of the
   * install or the retry is reported as a failed install.
   */
  method SaveImage(path: string, oracle: seq<Outcome>) returns (r: Result<(), Cause>, calls: seq<Call>)
    ensures ImageWrites(calls) <= 2
    ensures ImageBranch(path, oracle, r, calls)
  {
    var next := 0;
    calls := [WriteImage(path)];
    r := Ok(());
    var first := Nth(oracle, next);
    next := next + 1;
    if first.RuntimeFailure? && Contains(first.message, ChromeMissing) {
      calls := calls + [InstallChrome];
      var install := Nth(oracle, next);
      next := next + 1;
      if install.Done? {
        calls := calls + [WriteImage(path)];
        var retry := Nth(oracle, next);
        next := next + 1;
        if !retry.Done? {
          r := Err(InstallFailed(InstallFailedMessage, retry));
        }
      } else {
        r := Err(InstallFailed(InstallFailedMessage, install));
      }
    } else if !first.Done? {
      r := Err(ExportFailed(first));
    }
  }

  /**
   * When `save` succeeds: an image written at the first attempt, or after a
   * missing Chrome was installed; an HTML file written; never another suffix.
   */
  predicate Succeeds(path: string, oracle: seq<Outcome>) {
    match FormatOf(Extension(path))
    case Image =>
      var first := Nth(oracle, 0);
      || first.Done?
      || (first.RuntimeFailure? && Contains(first.message, ChromeMissing) && Nth(oracle, 1).Done? && Nth(oracle, 2).Done?)
    case Html => Nth(oracle, 0).Done?
    case _ => false
  }

  /**
   * `save(fig, path)`, the external calls answering in turn from `oracle`.
   * The log lists the external calls in the order they were made; every
   * failure is re-raised as the same RuntimeError naming the path.
   */
  method Save(path: string, oracle: seq<Outcome>) returns (r: Result<(), SaveError>, calls: seq<Call>)
    ensures ImageWrites(calls) <= 2
    ensures r.Ok? <==> Succeeds(path, oracle)
    ensures r.Err? ==> r.error.message == FailureMessage(path)
    ensures FormatOf(Extension(path)).Unsupported? ==>
              calls == [] && r == Err(SaveError(FailureMessage(path), UnsupportedFormat(UnsupportedMessage(Extension(path)))))
    ensures FormatOf(Extension(path)).Html? ==>
              calls == [WriteHtmlCdn(path)] && (r.Ok? <==> Nth(oracle, 0).Done?)
    ensures FormatOf(Extension(path)).Html? && r.Err? ==> r.error.cause == ExportFailed(Nth(oracle, 0))
    ensures FormatOf(Extension(path)).Image? ==>
              ImageBranch(path, oracle, if r.Ok? then Ok(()) else Err(r.error.cause), calls)
  {
    var ext := Extension(path);
    match FormatOf(ext)
    case Image =>
      var image;
      image, calls := SaveImage(path, oracle);
      r := if image.Ok? then Ok(()) else Err(SaveError(FailureMessage(path), image.error));
    case Html =>
      calls := [WriteHtmlCdn(path)];
      var written := Nth(oracle, 0);
      r := if written.Done? then Ok(()) else Err(SaveError(FailureMessage(path), ExportFailed(written)));
    case Unsupported =>
      calls := [];
      r := Err(SaveError(FailureMessage(path), UnsupportedFormat(UnsupportedMessage(ext))));
  }
}

/** `save_plot` of the legacy core: dispatch on the extension, `.json` included, nothing wrapped. */
module CoreSaver {
  import opened Values
  import opened Paths
  import opened Exports

  function FormatOf(ext: string): (f: Format)
    ensures f.Image? <==> ext in ImageSuffixes
    ensures f.Html? <==> ext == ".html"
    ensures f.Json? <==> ext == ".json"
  {
    if ext in ImageSuffixes then Image
    else if ext == ".html" then Html
    else if ext == ".json" then Json
    else Unsupported
  }

  /** What `save_plot` raises: its own ValueError, or the write's exception unchanged. */
  datatype SaveError = ValueError(message: string) | Raised(outcome: Outcome)

  datatype Saved = Saved(calls: seq<Call>, result: Result<(), SaveError>)

  /** `save_plot(fig, path)`, the single write ending with `outcome`. */
  function SavePlot(path: string, outcome: Outcome): (s: Saved)
    ensures |s.calls| <= 1
    ensures FormatOf(Extension(path)).Unsupported? <==> s.calls == []
    ensures s.calls == [] ==> s.result == Err(ValueError(
              "Unsupported file format: '" + Extension(path) + "'. Supported formats: .png, .svg, .pdf, .html, .json"))
    ensures s.calls != [] ==> (s.result.Ok? <==> outcome.Done?)
    ensures s.calls != [] && !outcome.Done? ==> s.result == Err(Raised(outcome))
    ensures FormatOf(Extension(path)).Image? ==> s.calls == [WriteImage(path)]
    ensures FormatOf(Extension(path)).Html? ==> s.calls == [WriteHtmlCdn(path)]
    ensures FormatOf(Extension(path)).Json? ==> s.calls == [WriteJson(path)]
  {
    var ext := Extension(path);
    var call := match FormatOf(ext)
      case Image => [WriteImage(path)]
      case Html => [WriteHtmlCdn(path)]
      case Json => [WriteJson(path)]
      case Unsupported => [];
    if call == [] then
      Saved([], Err(ValueError("Unsupported file format: '" + ext + "'. Supported formats: .png, .svg, .pdf, .html, .json")))
    else if outcome.Done? then Saved(call, Ok(()))
    else Saved(call, Err(Raised(outcome)))
  }
}

/** The two savers side by side. */
module SaverComparison {
  import opened Text
  import opened Paths
  import opened Exports
  import PlotlySaver
  import CoreSaver

  /** They classify every extension alike except `.json`, which only the core saver supports. */
  lemma FormatsAgreeExceptJson(ext: string)
    ensures ext != ".json" ==> PlotlySaver.FormatOf(ext) == CoreSaver.FormatOf(ext)
    ensures ext == ".json" ==> PlotlySaver.FormatOf(ext).Unsupported? && CoreSaver.FormatOf(ext).Json?
  {
  }

  lemma JsonSpelling()
    ensures '.' !in ".json"[1..] && Lower(".json") == ".json"
  {
  }

  /**
   * A path ending in ".json": the Plotly saver classifies it as unsupported,
   * so it writes nothing, while the core saver makes one `write_json` call.
   */
  lemma JsonRefusedByPlotly(dir: string, stem: string, outcome: Outcome)
    requires stem != [] && '/' !in stem
    ensures Extension(dir + "/" + stem + ".json") == ".json"
    ensures PlotlySaver.FormatOf(Extension(dir + "/" + stem + ".json")).Unsupported?
    ensures CoreSaver.FormatOf(Extension(dir + "/" + stem + ".json")).Json?
    ensures CoreSaver.SavePlot(dir + "/" + stem + ".json", outcome).calls == [WriteJson(dir + "/" + stem + ".json")]
  {
    JsonSpelling();
    ExtensionOfName(dir, stem, ".json");
    FormatsAgreeExceptJson(".json");
  }
}
