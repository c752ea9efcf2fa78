/**
 * The parsed configuration file as the settings store sees it: a map from
 * (section, option) to the option's text. ConfigParser keeps option names in
 * lower case (its `optionxform`), so every lookup and every update first lower-cases
 * the option name; section names are compared as written.
 */
module IniConfig {
  import opened Wrappers

  type Config = map<(string, string), string>

  predicate IsUpper(c: char) {
    'A' <= c <= 'Z'
  }

  function LowerChar(c: char): (r: char)
    ensures !IsUpper(r)
    ensures IsUpper(c) ==> r as int == c as int + 32
    ensures !IsUpper(c) ==> r == c
  {
    if IsUpper(c) then (c as int + 32) as char else c
  }

  /** Python's `str.lower` on the ASCII letters an option name is made of. */
  function Lower(s: string): string {
    seq(|s|, i requires 0 <= i < |s| => LowerChar(s[i]))
  }

  /** The key an option is stored under. */
  function Key(section: string, option: string): (string, string) {
    (section, Lower(option))
  }

  /** `config.get(section, option)`: None where ConfigParser raises NoSectionError or NoOptionError. */
  function Get(cfg: Config, section: string, option: string): (r: Option<string>)
    ensures r.Some? <==> Key(section, option) in cfg
    ensures r.Some? ==> r.value == cfg[Key(section, option)]
  {
    if Key(section, option) in cfg then Some(cfg[Key(section, option)]) else None
  }

  /**
   * `config.set(section, option, value)` on a section that exists; where it does not,
   * ConfigParser raises NoSectionError, and the callers check `Sections` first.
   */
  function Set(cfg: Config, section: string, option: string, value: string): Config {
    cfg[Key(section, option) := value]
  }

  /** The sections the configuration holds: those with at least one option. */
  function Sections(cfg: Config): set<string> {
    set k | k in cfg :: k.0
  }

  /** An option can only be read from a section that is there. */
  lemma GetHasSection(cfg: Config, section: string, option: string)
    ensures Get(cfg, section, option).Some? ==> section in Sections(cfg)
  {
    if Key(section, option) in cfg {
      assert Key(section, option).0 == section;
    }
  }

  /** A `set` adds its section and leaves any other section's presence as it was. */
  lemma SetSections(cfg: Config, section: string, option: string, value: string, other: string)
    ensures section in Sections(Set(cfg, section, option, value))
    ensures other != section ==> (other in Sections(Set(cfg, section, option, value)) <==> other in Sections(cfg))
  {
    var updated := Set(cfg, section, option, value);
    assert Key(section, option) in updated;
    if other != section && other in Sections(updated) {
      var k :| k in updated && k.0 == other;
      assert k in cfg;
    }
  }

  /** A `set` leaves every option of another section as it was. */
  lemma SetOtherSection(cfg: Config, section: string, option: string, value: string, other: string)
    requires other != section
    ensures forall o :: Get(Set(cfg, section, option, value), other, o) == Get(cfg, other, o)
  {
  }

  /** One `config.set(section, option, value)` call. */
  datatype Write = Write(section: string, option: string, value: string)

  function KeyOf(w: Write): (string, string) {
    Key(w.section, w.option)
  }

  /** The configuration after the `config.set` calls `writes`, made in order. */
  function SetAll(cfg: Config, writes: seq<Write>): Config
    decreases |writes|
  {
    if |writes| == 0 then cfg else SetAll(Set(cfg, writes[0].section, writes[0].option, writes[0].value), writes[1..])
  }

  /** One `set` call taken off the front of a run. */
  lemma SetAllStep(cfg: Config, writes: seq<Write>, k: int)
    requires 0 <= k < |writes|
    ensures SetAll(cfg, writes[k..]) == SetAll(Set(cfg, writes[k].section, writes[k].option, writes[k].value), writes[k + 1..])
  {
    assert writes[k..][1..] == writes[k + 1..];
  }

  /** The keys the calls `writes` set. */
  function WrittenKeys(writes: seq<Write>): set<(string, string)> {
    set i | 0 <= i < |writes| :: KeyOf(writes[i])
  }

  /** No two of the calls set the same key. */
  predicate DistinctKeys(writes: seq<Write>) {
    forall i, j :: 0 <= i < j < |writes| ==> KeyOf(writes[i]) != KeyOf(writes[j])
  }

  /** A run of `set` calls adds exactly the keys it writes and keeps every other key's value. */
  lemma {:induction false} SetAllKeys(cfg: Config, writes: seq<Write>)
    ensures SetAll(cfg, writes).Keys == cfg.Keys + WrittenKeys(writes)
    ensures forall k :: k in cfg && k !in WrittenKeys(writes) ==> SetAll(cfg, writes)[k] == cfg[k]
    decreases |writes|
  {
    if |writes| > 0 {
      var first := writes[0];
      SetAllKeys(Set(cfg, first.section, first.option, first.value), writes[1..]);
      assert WrittenKeys(writes) == {KeyOf(first)} + WrittenKeys(writes[1..]) by {
        forall k | k in WrittenKeys(writes) ensures k in {KeyOf(first)} + WrittenKeys(writes[1..]) {
          var i :| 0 <= i < |writes| && k == KeyOf(writes[i]);
          if i > 0 {
            assert writes[i] == writes[1..][i - 1];
          }
        }
        forall k | k in WrittenKeys(writes[1..]) ensures k in WrittenKeys(writes) {
          var i :| 0 <= i < |writes[1..]| && k == KeyOf(writes[1..][i]);
          assert writes[1..][i] == writes[i + 1];
        }
      }
    }
  }

  /** When no two calls set the same key, they set as many keys as there are calls. */
  lemma {:induction false} WrittenKeysCount(writes: seq<Write>)
    requires DistinctKeys(writes)
    ensures |WrittenKeys(writes)| == |writes|
    decreases |writes|
  {
    if |writes| > 0 {
      var rest := writes[1..];
      assert DistinctKeys(rest) by {
        forall a, b | 0 <= a < b < |rest| ensures KeyOf(rest[a]) != KeyOf(rest[b]) {
          assert rest[a] == writes[a + 1] && rest[b] == writes[b + 1];
        }
      }
      WrittenKeysCount(rest);
      assert KeyOf(writes[0]) !in WrittenKeys(rest) by {
        forall j | 0 <= j < |rest| ensures KeyOf(rest[j]) != KeyOf(writes[0]) {
          assert rest[j] == writes[j + 1];
        }
      }
      assert WrittenKeys(writes) == {KeyOf(writes[0])} + WrittenKeys(rest) by {
        forall k | k in WrittenKeys(writes) ensures k in {KeyOf(writes[0])} + WrittenKeys(rest) {
          var i :| 0 <= i < |writes| && k == KeyOf(writes[i]);
          if i > 0 {
            assert writes[i] == rest[i - 1];
          }
        }
        forall k | k in WrittenKeys(rest) ensures k in WrittenKeys(writes) {
          var i :| 0 <= i < |rest| && k == KeyOf(rest[i]);
          assert rest[i] == writes[i + 1];
        }
      }
    }
  }

  /** When no two calls set the same key, each option reads back the value its call set. */
  lemma {:induction false} SetAllGet(cfg: Config, writes: seq<Write>, i: int)
    requires DistinctKeys(writes) && 0 <= i < |writes|
    ensures Get(SetAll(cfg, writes), writes[i].section, writes[i].option) == Some(writes[i].value)
    decreases |writes|
  {
    var first := writes[0];
    var next := Set(cfg, first.section, first.option, first.value);
    if i == 0 {
      SetAllKeys(next, writes[1..]);
      assert KeyOf(first) !in WrittenKeys(writes[1..]) by {
        forall j | 0 <= j < |writes[1..]| ensures KeyOf(writes[1..][j]) != KeyOf(first) {
          assert writes[1..][j] == writes[j + 1];
        }
      }
    } else {
      assert DistinctKeys(writes[1..]) by {
        forall a, b | 0 <= a < b < |writes[1..]| ensures KeyOf(writes[1..][a]) != KeyOf(writes[1..][b]) {
          assert writes[1..][a] == writes[a + 1] && writes[1..][b] == writes[b + 1];
        }
      }
      SetAllGet(next, writes[1..], i - 1);
      assert writes[1..][i - 1] == writes[i];
    }
  }

  /** Option names differing only in letter case name the same entry: `ServerHostname` is `serverhostname`. */
  lemma CaseInsensitiveGet(cfg: Config, section: string, a: string, b: string)
    requires |a| == |b|
    requires forall i :: 0 <= i < |a| ==> LowerChar(a[i]) == LowerChar(b[i])
    ensures Get(cfg, section, a) == Get(cfg, section, b)
  {
    assert Lower(a) == Lower(b);
  }

  /** A name with no upper-case letter is its own key. */
  lemma LowerOfLowerCase(s: string)
    requires forall i :: 0 <= i < |s| ==> !IsUpper(s[i])
    ensures Lower(s) == s
  {
  }

  /** A lower-cased name is its own key, so the name an error reports reads the same entry. */
  lemma LowerTwice(section: string, option: string)
    ensures Lower(Lower(option)) == Lower(option)
    ensures Key(section, Lower(option)) == Key(section, option)
  {
    LowerOfLowerCase(Lower(option));
  }
}
