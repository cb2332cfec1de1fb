/**
 * The agent's configuration: the `.env` loader, the RSS source table and the
 * constants the fetcher reads (ai-news-agent/config.py).
 */
module AgentConfig {
  import opened Wrappers
  import opened Text

  /** The most entries examined per feed. */
  const MaxArticlesPerSource: nat := 10

  /** `SILICONFLOW_BASE_URL`. */
  const SiliconflowBaseUrl: string := "https://api.siliconflow.cn/v1"

  /** One configured RSS feed. */
  datatype SourceConfig = SourceConfig(name: string, url: string, description: string)

  const RssSources: seq<SourceConfig> := [
    SourceConfig("Hugging Face博客", "https://huggingface.co/blog/feed.xml", "Hugging Face官方博客，包含最新的AI模型和技术发布"),
    SourceConfig("ArXiv AI论文", "http://rss.arxiv.org/rss/cs.AI", "ArXiv人工智能领域最新学术论文"),
    SourceConfig("Reddit机器学习", "https://www.reddit.com/r/MachineLearning/.rss", "Reddit机器学习社区热门讨论"),
    SourceConfig("MIT Tech Review AI", "https://www.technologyreview.com/topic/artificial-intelligence/rss", "MIT科技评论人工智能专题"),
    SourceConfig("The Batch (Andrew Ng)", "https://landing.ai/the-batch/rss.xml", "Andrew Ng的AI周报")
  ]

  /**
   * The assignment a `.env` line makes, or None for a line the loader skips:
   * after stripping, an empty line, a comment line, or a line without '='.
   */
  function ParseLine(raw: string): (r: Option<(string, string)>)
  {
    var line := Strip(raw);
    if line == "" || "#" <= line || '=' !in line then None
    else
      var i := IndexOf(line, '=');
      Some((Strip(line[..i]), Strip(line[i + 1..])))
  }

  /**
   * A line is skipped exactly in the three cases, and otherwise splits at its
   * first '=': the key holds no '=', while the value may. The key may be empty;
   * `Refused` says which assignments the environment then refuses.
   */
  lemma ParseLineCases(raw: string)
    ensures var line := Strip(raw);
      ParseLine(raw).None? <==> (line == "" || "#" <= line || '=' !in line)
    ensures ParseLine(raw).Some? ==>
      var line := Strip(raw);
      exists i :: 0 <= i < |line| && line[i] == '=' && '=' !in line[..i]
        && ParseLine(raw).value == (Strip(line[..i]), Strip(line[i + 1..]))
    ensures ParseLine(raw).Some? ==> '=' !in ParseLine(raw).value.0
  {
    var line := Strip(raw);
    if ParseLine(raw).Some? {
      var i := IndexOf(line, '=');
      var k := Strip(line[..i]);
      var a, b := TrimSlice(Python, line[..i]);
      assert k == line[..i][a..b];
      assert forall n :: 0 <= n < |k| ==> k[n] == line[..i][a + n];
    }
  }

  /**
   * An assignment the process environment refuses: `os.environ[k] = v` raises
   * `ValueError` for an empty name and for a NUL character in the name or value.
   */
  predicate Refused(line: string)
  {
    match ParseLine(line)
    case None => false
    case Some((k, v)) => k == "" || '\0' in k || '\0' in v
  }

  /** The number of lines `load_env` gets through: those before the first refused one. */
  function Reached(lines: seq<string>): (n: nat)
    ensures n <= |lines|
    ensures forall j :: 0 <= j < n ==> !Refused(lines[j])
    ensures n < |lines| ==> Refused(lines[n])
  {
    if lines == [] then 0
    else if Refused(lines[0]) then 0
    else
      var n := Reached(lines[1..]);
      assert forall j :: 1 <= j < 1 + n ==> lines[j] == lines[1..][j - 1];
      1 + n
  }

  /** A line `=value` names no variable, so loading a file that holds one raises. */
  lemma EmptyNameRefused(lines: seq<string>, k: nat)
    requires k < |lines| && Strip(lines[k]) == "=1"
    ensures Refused(lines[k]) && Reached(lines) <= k
  {
    var line := Strip(lines[k]);
    assert line[0] == '=' && line[1] == '1';
    assert !("#" <= line);
    assert IndexOf(line, '=') == 0;
    assert line[..0] == "";
    assert Strip("") == "";
  }

  /** The environment after applying `lines` in order: each assignment overwrites the key. */
  function Apply(env: map<string, string>, lines: seq<string>): (r: map<string, string>)
  {
    if lines == [] then env
    else
      var before := Apply(env, lines[..|lines| - 1]);
      match ParseLine(lines[|lines| - 1])
      case None => before
      case Some((k, v)) => before[k := v]
  }

  /** The value the last assigning line gives `key`, if any line assigns it. */
  function LastAssignment(lines: seq<string>, key: string): (r: Option<string>)
  {
    if lines == [] then None
    else match ParseLine(lines[|lines| - 1])
      case Some((k, v)) => if k == key then Some(v) else LastAssignment(lines[..|lines| - 1], key)
      case None => LastAssignment(lines[..|lines| - 1], key)
  }

  /**
   * Later lines override earlier ones and the file overrides the environment;
   * a key the file never assigns keeps its value, and no key disappears.
   */
  lemma {:induction false} ApplyLookup(env: map<string, string>, lines: seq<string>, key: string)
    ensures LastAssignment(lines, key).Some? ==>
      key in Apply(env, lines) && Apply(env, lines)[key] == LastAssignment(lines, key).value
    ensures LastAssignment(lines, key).None? ==>
      (key in Apply(env, lines) <==> key in env) && (key in env ==> Apply(env, lines)[key] == env[key])
  {
    if lines != [] {
      var init, last := lines[..|lines| - 1], lines[|lines| - 1];
      ApplyLookup(env, init, key);
      var before := Apply(env, init);
      match ParseLine(last) {
        case None =>
          assert Apply(env, lines) == before;
          assert LastAssignment(lines, key) == LastAssignment(init, key);
        case Some(p) =>
          assert Apply(env, lines) == before[p.0 := p.1];
          assert LastAssignment(lines, key) == if p.0 == key then Some(p.1) else LastAssignment(init, key);
      }
    }
  }

  /** The lines reached are those up to the first refused one. */
  lemma {:induction false} ReachedAt(lines: seq<string>, i: nat)
    requires i <= |lines| && forall j :: 0 <= j < i ==> !Refused(lines[j])
    requires i < |lines| ==> Refused(lines[i])
    ensures Reached(lines) == i
  {
    if i > 0 {
      assert !Refused(lines[0]);
      ReachedAt(lines[1..], i - 1);
    }
  }

  /** The process environment that `load_env` writes into. */
  class Environ {
    var vars: map<string, string>

    constructor (initial: map<string, string>)
      ensures vars == initial
    {
      vars := initial;
    }

    /**
     * `load_env`: when the file exists, its lines are applied in order until
     * one the environment refuses, where the `ValueError` escapes (and with it
     * the import of the module); when it does not, the environment is unchanged.
     */
    method LoadEnv(fileExists: bool, lines: seq<string>) returns (raised: bool)
      modifies this
      ensures raised <==> fileExists && Reached(lines) < |lines|
      ensures vars == if fileExists then Apply(old(vars), lines[..Reached(lines)]) else old(vars)
    {
      raised := false;
      if fileExists {
        var i := 0;
        while i < |lines|
          invariant 0 <= i <= |lines|
          invariant forall j :: 0 <= j < i ==> !Refused(lines[j])
          invariant vars == Apply(old(vars), lines[..i])
        {
          var line := lines[i];
          if Refused(line) {
            ReachedAt(lines, i);
            return true;
          }
          assert lines[..i + 1][..i] == lines[..i];
          match ParseLine(line) {
            case None =>
            case Some((k, v)) => vars := vars[k := v];
          }
          i := i + 1;
        }
        ReachedAt(lines, i);
      }
    }

    /** `os.getenv(name, default)`. */
    function GetEnv(name: string, default: string): (r: string)
      reads this
      ensures name in vars ==> r == vars[name]
      ensures name !in vars ==> r == default
    {
      if name in vars then vars[name] else default
    }
  }

  /** `SILICONFLOW_API_KEY`; it is empty when the variable is unset. */
  function SiliconflowApiKey(env: map<string, string>): (r: string)
    ensures "SILICONFLOW_API_KEY" !in env ==> r == ""
    ensures "SILICONFLOW_API_KEY" in env ==> r == env["SILICONFLOW_API_KEY"]
  {
    if "SILICONFLOW_API_KEY" in env then env["SILICONFLOW_API_KEY"] else ""
  }
}
