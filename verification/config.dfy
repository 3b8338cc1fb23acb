/**
 * Dot-path access to the nested configuration (`ConfigLoader`).
 *
 * The configuration is the value YAML loading produced: scalars, lists and
 * dictionaries with string keys. `get('a.b.c')` walks the dictionaries
 * along the segments of the path; `set('a.b.c', v)` walks them too,
 * creating an empty dictionary for each missing intermediate key.
 */
module Config {
  import opened Wrappers

  /** A configuration value. */
  datatype Value =
    | Null
    | Bool(b: bool)
    | Int(i: int)
    | Num(r: real)
    | Str(s: string)
    | List(items: seq<Value>)
    | Dict(entries: map<string, Value>)

  const EMPTY_DICT := Dict(map[])

  // ---------------------------------------------------------------------------
  // `str.split` and its inverse

  /** The segments separated by `sep` joined back together. */
  function Join(parts: seq<string>, sep: char): string
    requires |parts| >= 1
    decreases |parts|
  {
    if |parts| == 1 then parts[0] else parts[0] + [sep] + Join(parts[1..], sep)
  }

  /** How often `c` occurs in `s`. */
  function Occurrences(s: string, c: char): nat
    decreases |s|
  {
    if s == [] then 0 else (if s[0] == c then 1 else 0) + Occurrences(s[1..], c)
  }

  /** Python's `s.split(sep)` for a one-character separator; never empty. */
  function Split(s: string, sep: char): (parts: seq<string>)
    ensures |parts| >= 1
    decreases |s|
  {
    if s == [] then [""]
    else
      var rest := Split(s[1..], sep);
      if s[0] == sep then [""] + rest
      else [[s[0]] + rest[0]] + rest[1..]
  }

  /** A split has one segment more than the string has separators. */
  lemma {:induction false} SplitCount(s: string, sep: char)
    ensures |Split(s, sep)| == Occurrences(s, sep) + 1
    decreases |s|
  {
    if s != [] {
      SplitCount(s[1..], sep);
      var rest := Split(s[1..], sep);
      if s[0] == sep {
        assert Split(s, sep) == [""] + rest;
      } else {
        assert Split(s, sep) == [[s[0]] + rest[0]] + rest[1..];
      }
    }
  }

  /** No segment of a split contains the separator. */
  lemma {:induction false} SplitSegmentsLackSeparator(s: string, sep: char)
    ensures forall i :: 0 <= i < |Split(s, sep)| ==> sep !in Split(s, sep)[i]
    decreases |s|
  {
    if s != [] {
      SplitSegmentsLackSeparator(s[1..], sep);
      var rest := Split(s[1..], sep);
      var parts := Split(s, sep);
      if s[0] == sep {
        assert parts == [""] + rest;
      } else {
        assert parts == [[s[0]] + rest[0]] + rest[1..];
        assert sep !in [s[0]] + rest[0];
      }
    }
  }

  /** Joining a segment in front of at least one more. */
  lemma JoinCons(head: string, tail: seq<string>, sep: char)
    requires |tail| >= 1
    ensures Join([head] + tail, sep) == head + [sep] + Join(tail, sep)
  {
    assert ([head] + tail)[1..] == tail;
  }

  /** Gluing a character to the front of the first segment glues it to the front of the joined string. */
  lemma JoinGlued(c: char, parts: seq<string>, sep: char)
    requires |parts| >= 1
    ensures Join([[c] + parts[0]] + parts[1..], sep) == [c] + Join(parts, sep)
  {
    if |parts| > 1 {
      assert parts == [parts[0]] + parts[1..];
      JoinCons(parts[0], parts[1..], sep);
      JoinCons([c] + parts[0], parts[1..], sep);
    }
  }

  /** Joining the segments of a split with the separator gives the string back. */
  lemma {:induction false} JoinSplit(s: string, sep: char)
    ensures Join(Split(s, sep), sep) == s
    decreases |s|
  {
    if s != [] {
      JoinSplit(s[1..], sep);
      var rest := Split(s[1..], sep);
      assert s == [s[0]] + s[1..];
      if s[0] == sep {
        assert Split(s, sep) == [""] + rest;
        JoinCons("", rest, sep);
      } else {
        assert Split(s, sep) == [[s[0]] + rest[0]] + rest[1..];
        JoinGlued(s[0], rest, sep);
      }
    }
  }

  /** Splitting a word without separators, followed by the separator and more text. */
  lemma {:induction false} SplitWord(w: string, sep: char, tail: Option<string>)
    requires sep !in w
    ensures tail.None? ==> Split(w, sep) == [w]
    ensures tail.Some? ==> Split(w + [sep] + tail.value, sep) == [w] + Split(tail.value, sep)
    decreases |w|
  {
    if w != [] {
      SplitWord(w[1..], sep, tail);
      match tail
      case None =>
        assert Split(w[1..], sep) == [w[1..]];
        assert [w[0]] + w[1..] == w;
      case Some(t) =>
        var s := w + [sep] + t;
        assert s[0] == w[0] && s[1..] == w[1..] + [sep] + t;
        var rest := Split(s[1..], sep);
        assert rest[0] == w[1..] && rest[1..] == Split(t, sep);
        assert [w[0]] + w[1..] == w;
    } else if tail.Some? {
      assert w + [sep] + tail.value == [sep] + tail.value;
      assert ([sep] + tail.value)[1..] == tail.value;
    }
  }

  /** Splitting undoes joining separator-free segments: the other half of the round trip. */
  lemma {:induction false} SplitJoin(parts: seq<string>, sep: char)
    requires |parts| >= 1
    requires forall i :: 0 <= i < |parts| ==> sep !in parts[i]
    ensures Split(Join(parts, sep), sep) == parts
    decreases |parts|
  {
    if |parts| == 1 {
      SplitWord(parts[0], sep, None);
    } else {
      SplitJoin(parts[1..], sep);
      SplitWord(parts[0], sep, Some(Join(parts[1..], sep)));
      assert [parts[0]] + parts[1..] == parts;
    }
  }

  // ---------------------------------------------------------------------------
  // Walking a path

  /** Every segment of `keys` is found, each in a dictionary. */
  predicate Present(config: Value, keys: seq<string>)
    decreases |keys|
  {
    keys == [] || (config.Dict? && keys[0] in config.entries && Present(config.entries[keys[0]], keys[1..]))
  }

  /** The value stored at a present path. */
  function ValueAt(config: Value, keys: seq<string>): Value
    requires Present(config, keys)
    decreases |keys|
  {
    if keys == [] then config else ValueAt(config.entries[keys[0]], keys[1..])
  }

  /** The loop of `get`: descend while the current value is a dictionary holding the key, else give `default`. */
  function GetPath(config: Value, keys: seq<string>, default: Value): (r: Value)
    // the stored value when the whole path is present, the default as soon as a segment is missing
    ensures Present(config, keys) ==> r == ValueAt(config, keys)
    ensures !Present(config, keys) ==> r == default
    decreases |keys|
  {
    if keys == [] then config
    else if config.Dict? && keys[0] in config.entries then GetPath(config.entries[keys[0]], keys[1..], default)
    else default
  }

  /** Walking `p + q` is walking `p` and then `q`; as soon as `p` is missing the default comes back. */
  lemma {:induction false} GetPathAppend(config: Value, p: seq<string>, q: seq<string>, default: Value)
    ensures GetPath(config, p + q, default)
         == if Present(config, p) then GetPath(GetPath(config, p, default), q, default) else default
    decreases |p|
  {
    if p != [] {
      assert (p + q)[0] == p[0] && (p + q)[1..] == p[1..] + q;
      if config.Dict? && p[0] in config.entries {
        GetPathAppend(config.entries[p[0]], p[1..], q, default);
      }
    } else {
      assert p + q == q;
    }
  }

  /**
   * The walk of `set`: create `{}` for each missing intermediate key, then
   * store `value` under the last segment. Reaching anything other than a
   * dictionary raises, which is caught before any write: the result is None.
   */
  function SetPath(config: Value, keys: seq<string>, value: Value): (r: Option<Value>)
    requires |keys| >= 1
    // the walk fails at once below anything but a dictionary
    ensures !config.Dict? ==> r.None?
    // on success the result is a dictionary whose top-level keys gained at most the first segment
    ensures r.Some? ==> r.value.Dict? && r.value.entries.Keys == config.entries.Keys + {keys[0]}
    // and whose other top-level entries are untouched
    ensures r.Some? ==> forall k :: k in config.entries && k != keys[0] ==> r.value.entries[k] == config.entries[k]
    decreases |keys|
  {
    if !config.Dict? then None
    else if |keys| == 1 then Some(Dict(config.entries[keys[0] := value]))
    else
      var child := if keys[0] in config.entries then config.entries[keys[0]] else EMPTY_DICT;
      match SetPath(child, keys[1..], value)
      case None => None
      case Some(newChild) => Some(Dict(config.entries[keys[0] := newChild]))
  }

  /** Every intermediate value the walk of `keys` reaches (the root included) is a dictionary. */
  ghost predicate IntermediatesAreDicts(config: Value, keys: seq<string>) {
    forall i :: 0 <= i < |keys| && Present(config, keys[..i]) ==> GetPath(config, keys[..i], Null).Dict?
  }

  /** `set` below an empty dictionary always succeeds. */
  lemma {:induction false} SetInEmptySucceeds(keys: seq<string>, value: Value)
    requires |keys| >= 1
    ensures SetPath(EMPTY_DICT, keys, value).Some?
    decreases |keys|
  {
    if |keys| > 1 {
      SetInEmptySucceeds(keys[1..], value);
    }
  }

  /** `set` fails exactly when the walk meets an existing value that is not a dictionary. */
  lemma {:induction false} SetSucceedsIff(config: Value, keys: seq<string>, value: Value)
    requires |keys| >= 1
    ensures SetPath(config, keys, value).Some? <==> IntermediatesAreDicts(config, keys)
    decreases |keys|
  {
    assert keys[..0] == [];
    if config.Dict? && |keys| > 1 {
      var k := keys[0];
      var rest := keys[1..];
      // prefixes of `keys` beyond the root are `k` followed by prefixes of `rest`
      assert forall i :: 1 <= i <= |keys| ==> keys[..i] == [k] + rest[..i - 1];
      if k in config.entries {
        var child := config.entries[k];
        SetSucceedsIff(child, rest, value);
        assert IntermediatesAreDicts(config, keys) <==> IntermediatesAreDicts(child, rest) by {
          forall i | 1 <= i < |keys|
            ensures Present(config, keys[..i]) == Present(child, rest[..i - 1])
            ensures GetPath(config, keys[..i], Null) == GetPath(child, rest[..i - 1], Null)
          {
            assert keys[..i] == [k] + rest[..i - 1];
          }
          if IntermediatesAreDicts(child, rest) {
            forall i | 0 <= i < |keys| && Present(config, keys[..i])
              ensures GetPath(config, keys[..i], Null).Dict?
            {
              if i > 0 {
                assert Present(child, rest[..i - 1]);
              }
            }
          }
          if IntermediatesAreDicts(config, keys) {
            forall j | 0 <= j < |rest| && Present(child, rest[..j])
              ensures GetPath(child, rest[..j], Null).Dict?
            {
              assert keys[..j + 1] == [k] + rest[..j];
            }
          }
        }
      } else {
        SetInEmptySucceeds(rest, value);
        forall i | 1 <= i < |keys|
          ensures !Present(config, keys[..i])
        {
          assert keys[..i][0] == k;
        }
      }
    }
  }

  /** After a successful `set(p, v)`, `get(p)` returns `v`. */
  lemma {:induction false} GetAfterSet(config: Value, keys: seq<string>, value: Value, default: Value)
    requires |keys| >= 1 && SetPath(config, keys, value).Some?
    ensures GetPath(SetPath(config, keys, value).value, keys, default) == value
    decreases |keys|
  {
    if |keys| > 1 {
      var child := if keys[0] in config.entries then config.entries[keys[0]] else EMPTY_DICT;
      GetAfterSet(child, keys[1..], value, default);
    }
  }

  /** Two paths that part ways at some segment. */
  predicate Diverge(p: seq<string>, q: seq<string>)
    decreases |p|
  {
    |p| > 0 && |q| > 0 && (p[0] != q[0] || Diverge(p[1..], q[1..]))
  }

  /** `set(p, v)` leaves the value at every path that parts ways with `p` unchanged. */
  lemma {:induction false} SetLeavesOtherPaths(config: Value, keys: seq<string>, value: Value, other: seq<string>, default: Value)
    requires |keys| >= 1 && SetPath(config, keys, value).Some?
    requires Diverge(keys, other)
    ensures GetPath(SetPath(config, keys, value).value, other, default) == GetPath(config, other, default)
    decreases |keys|
  {
    if keys[0] == other[0] {
      var child := if keys[0] in config.entries then config.entries[keys[0]] else EMPTY_DICT;
      SetLeavesOtherPaths(child, keys[1..], value, other[1..], default);
    }
  }

  /** The configuration loader; loading from and saving to YAML files are not modelled. */
  class ConfigLoader {
    var config: Value

    /** Start from an already loaded configuration. */
    constructor (loaded: Value)
      ensures config == loaded
    {
      config := loaded;
    }

    /** `get`: the value at the dotted path, or `default`. */
    function Get(keyPath: string, default: Value): (r: Value)
      reads this
      ensures Present(config, Split(keyPath, '.')) ==> r == ValueAt(config, Split(keyPath, '.'))
      ensures !Present(config, Split(keyPath, '.')) ==> r == default
    {
      GetPath(config, Split(keyPath, '.'), default)
    }

    /** `set`: on success the configuration is the updated tree; on failure it is unchanged (the error is only logged). */
    method Set(keyPath: string, value: Value)
      modifies this
      ensures var updated := SetPath(old(config), Split(keyPath, '.'), value);
        config == if updated.Some? then updated.value else old(config)
    {
      var keys := Split(keyPath, '.');
      var updated := SetPath(config, keys, value);
      if updated.Some? {
        config := updated.value;
      }
    }

    function GetWifiConfig(): (r: map<string, Value>)
      reads this
      ensures "ssid" in r && "password" in r
    {
      map[
        "ssid" := Get(Dotted(["wifi", "ssid"]), Str("SLT_FIBRE")),
        "password" := Get(Dotted(["wifi", "password"]), Str("abcd1234"))
      ]
    }

    function GetCarConfig(): (r: map<string, Value>)
      reads this
      ensures "ip" in r && "port" in r
    {
      map[
        "ip" := Get(Dotted(["car", "ip"]), Str("192.168.1.112")),
        "port" := Get(Dotted(["car", "port"]), Int(80))
      ]
    }

    function GetMotorConfig(): (r: map<string, Value>)
      reads this
      ensures "direction_correction" in r && "max_speed" in r && "pwm_frequency" in r && "pwm_resolution" in r && "motor2_startup_delay" in r
    {
      map[
        "direction_correction" := Get(Dotted(["motors", "direction_correction"]), List([Int(-1), Int(1), Int(1), Int(1)])),
        "max_speed" := Get(Dotted(["motors", "max_speed"]), Int(255)),
        "pwm_frequency" := Get(Dotted(["motors", "pwm_frequency"]), Int(1000)),
        "pwm_resolution" := Get(Dotted(["motors", "pwm_resolution"]), Int(8)),
        "motor2_startup_delay" := Get(Dotted(["motors", "motor2_startup_delay"]), Int(50))
      ]
    }

    function GetVisionConfig(): (r: map<string, Value>)
      reads this
      ensures "camera" in r && "hand_detection" in r && "yolo" in r
    {
      map[
        "camera" := Dict(map[
          "width" := Get(Dotted(["vision", "camera", "width"]), Int(640)),
          "height" := Get(Dotted(["vision", "camera", "height"]), Int(480)),
          "flip_horizontal" := Get(Dotted(["vision", "camera", "flip_horizontal"]), Bool(true))
        ]),
        "hand_detection" := Dict(map[
          "confidence_threshold" := Get(Dotted(["vision", "hand_detection", "confidence_threshold"]), Num(0.5)),
          "person_confidence_threshold" := Get(Dotted(["vision", "hand_detection", "person_confidence_threshold"]), Num(0.5))
        ]),
        "yolo" := Dict(map[
          "model_file" := Get(Dotted(["vision", "yolo", "model_file"]), Str("yolo11x-pose.pt")),
          "verbose" := Get(Dotted(["vision", "yolo", "verbose"]), Bool(false))
        ])
      ]
    }

    function GetControllerConfig(): (r: map<string, Value>)
      reads this
      ensures "min_command_interval" in r && "connection_timeout" in r && "request_timeout" in r
    {
      map[
        "min_command_interval" := Get(Dotted(["controller", "min_command_interval"]), Num(2.0)),
        "connection_timeout" := Get(Dotted(["controller", "connection_timeout"]), Int(5)),
        "request_timeout" := Get(Dotted(["controller", "request_timeout"]), Int(2))
      ]
    }

    /** Colour triples are returned as they are stored (`tuple()` of a list keeps its items). */
    function GetDisplayConfig(): (r: map<string, Value>)
      reads this
      ensures "font_scale" in r && "font_thickness" in r && "text_color" in r && "keypoint_radius" in r && "keypoint_color" in r && "connection_color" in r && "connection_thickness" in r && "bbox_color" in r && "bbox_thickness" in r
    {
      map[
        "font_scale" := Get(Dotted(["display", "font_scale"]), Int(1)),
        "font_thickness" := Get(Dotted(["display", "font_thickness"]), Int(2)),
        "text_color" := Get(Dotted(["display", "text_color"]), List([Int(0), Int(255), Int(0)])),
        "keypoint_radius" := Get(Dotted(["display", "keypoint_radius"]), Int(4)),
        "keypoint_color" := Get(Dotted(["display", "keypoint_color"]), List([Int(255), Int(0), Int(0)])),
        "connection_color" := Get(Dotted(["display", "connection_color"]), List([Int(0), Int(255), Int(0)])),
        "connection_thickness" := Get(Dotted(["display", "connection_thickness"]), Int(2)),
        "bbox_color" := Get(Dotted(["display", "bbox_color"]), List([Int(0), Int(255), Int(0)])),
        "bbox_thickness" := Get(Dotted(["display", "bbox_thickness"]), Int(2))
      ]
    }
  }

  /** A configuration key written as its segments joined by dots. */
  function Dotted(segments: seq<string>): string
    requires |segments| >= 1
  {
    Join(segments, '.')
  }

  /** `get` on a dotted key walks exactly its segments, and yields the default when they are not all present. */
  lemma GetDotted(loader: ConfigLoader, segments: seq<string>, default: Value)
    requires |segments| >= 1 && forall i :: 0 <= i < |segments| ==> '.' !in segments[i]
    ensures loader.Get(Dotted(segments), default) == GetPath(loader.config, segments, default)
    ensures !Present(loader.config, segments) ==> loader.Get(Dotted(segments), default) == default
  {
    SplitJoin(segments, '.');
  }

  /**
   * `get_controller_config` falls back to a 2.0 s command interval when the key is missing
   * (the controller class itself uses its own 0.1 s constant and never reads this).
   */
  lemma MinCommandIntervalDefault(loader: ConfigLoader)
    ensures !Present(loader.config, ["controller", "min_command_interval"])
      ==> loader.GetControllerConfig()["min_command_interval"] == Num(2.0)
  {
    GetDotted(loader, ["controller", "min_command_interval"], Num(2.0));
  }

  /** `get_car_config` falls back to its literal address and to port 80 for missing keys. */
  lemma CarConfigDefaults(loader: ConfigLoader)
    ensures !Present(loader.config, ["car", "ip"]) ==> loader.GetCarConfig()["ip"] == Str("192.168.1.112")
    ensures !Present(loader.config, ["car", "port"]) ==> loader.GetCarConfig()["port"] == Int(80)
  {
    GetDotted(loader, ["car", "ip"], Str("192.168.1.112"));
    GetDotted(loader, ["car", "port"], Int(80));
  }

  /** `get_wifi_config` falls back to the firmware's own network name and password for missing keys. */
  lemma WifiConfigDefaults(loader: ConfigLoader)
    ensures !Present(loader.config, ["wifi", "ssid"]) ==> loader.GetWifiConfig()["ssid"] == Str("SLT_FIBRE")
    ensures !Present(loader.config, ["wifi", "password"]) ==> loader.GetWifiConfig()["password"] == Str("abcd1234")
  {
    GetDotted(loader, ["wifi", "ssid"], Str("SLT_FIBRE"));
    GetDotted(loader, ["wifi", "password"], Str("abcd1234"));
  }

  /** Every entry of `get_vision_config` reads its three-segment key, so the camera width falls back to 640. */
  lemma VisionCameraWidthDefault(loader: ConfigLoader)
    ensures !Present(loader.config, ["vision", "camera", "width"])
      ==> loader.GetVisionConfig()["camera"] == Dict(map[
            "width" := Int(640),
            "height" := loader.Get(Dotted(["vision", "camera", "height"]), Int(480)),
            "flip_horizontal" := loader.Get(Dotted(["vision", "camera", "flip_horizontal"]), Bool(true))
          ])
  {
    GetDotted(loader, ["vision", "camera", "width"], Int(640));
  }
}
