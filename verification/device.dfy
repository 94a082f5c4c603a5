/**
  The page's device classifier: an ordered list of case-insensitive
  substring tests on the user-agent string, the first hit deciding.
 */
module Device {

  import opened Text

  datatype DeviceClass = Android | IOS | Windows | Linux | Mac | Unknown {
    /** The label shown on the page and sent with every position. */
    function Label(): string {
      match this
      case Android => "Android \U{1F4F1}"
      case IOS => "iOS \U{1F34E}"
      case Windows => "Windows \U{1F4BB}"
      case Linux => "Linux \U{1F427}"
      case Mac => "Mac \U{1F5A5}\U{FE0F}"
      case Unknown => "Unknown \U{2753}"
    }
  }

  /** One test: any of the alternatives occurring, ignoring ASCII case. */
  datatype Rule = Rule(alternatives: seq<string>, device: DeviceClass)

  const Rules: seq<Rule> := [
    Rule(["Android"], Android),
    Rule(["iPhone", "iPad", "iPod"], IOS),
    Rule(["Windows"], Windows),
    Rule(["Linux"], Linux),
    Rule(["Mac"], Mac)
  ]

  predicate Matches(ua: string, rule: Rule) {
    exists i | 0 <= i < |rule.alternatives| :: ContainsIgnoreCase(ua, rule.alternatives[i])
  }

  /** Reference reading of the classifier: the device of the first rule that matches. */
  function FirstMatch(ua: string, rules: seq<Rule>): DeviceClass
    decreases |rules|
  {
    if |rules| == 0 then Unknown
    else if Matches(ua, rules[0]) then rules[0].device
    else FirstMatch(ua, rules[1..])
  }

  predicate IsAndroid(ua: string) { ContainsIgnoreCase(ua, "Android") }
  predicate IsApple(ua: string) {
    ContainsIgnoreCase(ua, "iPhone") || ContainsIgnoreCase(ua, "iPad") || ContainsIgnoreCase(ua, "iPod")
  }
  predicate IsWindows(ua: string) { ContainsIgnoreCase(ua, "Windows") }
  predicate IsLinux(ua: string) { ContainsIgnoreCase(ua, "Linux") }
  predicate IsMac(ua: string) { ContainsIgnoreCase(ua, "Mac") }

  function GetDeviceType(ua: string): (d: DeviceClass)
    ensures d == Android <==> IsAndroid(ua)
    ensures d == IOS <==> !IsAndroid(ua) && IsApple(ua)
    ensures d == Windows <==> !IsAndroid(ua) && !IsApple(ua) && IsWindows(ua)
    ensures d == Linux <==> !IsAndroid(ua) && !IsApple(ua) && !IsWindows(ua) && IsLinux(ua)
    ensures d == Mac <==> !IsAndroid(ua) && !IsApple(ua) && !IsWindows(ua) && !IsLinux(ua) && IsMac(ua)
    ensures d == Unknown <==>
      !IsAndroid(ua) && !IsApple(ua) && !IsWindows(ua) && !IsLinux(ua) && !IsMac(ua)
  {
    if IsAndroid(ua) then Android
    else if IsApple(ua) then IOS
    else if IsWindows(ua) then Windows
    else if IsLinux(ua) then Linux
    else if IsMac(ua) then Mac
    else Unknown
  }

  lemma MatchesOne(ua: string, p: string, d: DeviceClass)
    ensures Matches(ua, Rule([p], d)) <==> ContainsIgnoreCase(ua, p)
  {
    if ContainsIgnoreCase(ua, p) {
      assert ContainsIgnoreCase(ua, Rule([p], d).alternatives[0]);
    }
  }

  lemma MatchesApple(ua: string)
    ensures Matches(ua, Rule(["iPhone", "iPad", "iPod"], IOS)) <==> IsApple(ua)
  {
    var alts := ["iPhone", "iPad", "iPod"];
    if ContainsIgnoreCase(ua, "iPhone") {
      assert ContainsIgnoreCase(ua, alts[0]);
    } else if ContainsIgnoreCase(ua, "iPad") {
      assert ContainsIgnoreCase(ua, alts[1]);
    } else if ContainsIgnoreCase(ua, "iPod") {
      assert ContainsIgnoreCase(ua, alts[2]);
    }
  }

  lemma FirstMatchCons(ua: string, r: Rule, rest: seq<Rule>)
    ensures FirstMatch(ua, [r] + rest) == if Matches(ua, r) then r.device else FirstMatch(ua, rest)
  {
    assert ([r] + rest)[1..] == rest;
  }

  /** The if-chain and the rule list agree on every user agent. */
  lemma GetDeviceTypeIsFirstMatch(ua: string)
    ensures GetDeviceType(ua) == FirstMatch(ua, Rules)
  {
    var r4 := [Rule(["Mac"], Mac)];
    var r3 := [Rule(["Linux"], Linux)] + r4;
    var r2 := [Rule(["Windows"], Windows)] + r3;
    var r1 := [Rule(["iPhone", "iPad", "iPod"], IOS)] + r2;
    assert Rules == [Rule(["Android"], Android)] + r1;
    FirstMatchCons(ua, Rule(["Mac"], Mac), []);
    FirstMatchCons(ua, Rule(["Linux"], Linux), r4);
    FirstMatchCons(ua, Rule(["Windows"], Windows), r3);
    FirstMatchCons(ua, Rule(["iPhone", "iPad", "iPod"], IOS), r2);
    FirstMatchCons(ua, Rule(["Android"], Android), r1);
    MatchesOne(ua, "Android", Android);
    MatchesApple(ua);
    MatchesOne(ua, "Windows", Windows);
    MatchesOne(ua, "Linux", Linux);
    MatchesOne(ua, "Mac", Mac);
  }

  /** Android user agents also name Linux; Android comes first and wins, wherever the words appear. */
  lemma AndroidBeatsLinux(before: string, between: string, after: string)
    ensures GetDeviceType(before + "Android" + between + "Linux" + after) == Android
    ensures GetDeviceType(before + "Linux" + between + "Android" + after) == Android
  {
    ContainsInside(before, "Android", between + "Linux" + after);
    assert before + "Android" + between + "Linux" + after == before + "Android" + (between + "Linux" + after);
    ContainsInside(before + "Linux" + between, "Android", after);
  }

  /** The classifier as the page runs it: each test a regular-expression search, in order. */
  method Classify(ua: string) returns (d: DeviceClass)
    ensures d == GetDeviceType(ua)
  {
    var hit := TestIgnoreCase(ua, "Android");
    if hit { return Android; }
    var phone := TestIgnoreCase(ua, "iPhone");
    var pad := TestIgnoreCase(ua, "iPad");
    var pod := TestIgnoreCase(ua, "iPod");
    if phone || pad || pod { return IOS; }
    hit := TestIgnoreCase(ua, "Windows");
    if hit { return Windows; }
    hit := TestIgnoreCase(ua, "Linux");
    if hit { return Linux; }
    hit := TestIgnoreCase(ua, "Mac");
    if hit { return Mac; }
    return Unknown;
  }
}
