/**
 * The mock profile generator, the scoring heuristic with its two
 * explanation breakdowns, the constant model metrics and the synthetic
 * follower network of src/utils/mockData.ts.
 *
 * Every `Math.random()` draw is a parameter in [0, 1) and every `Date.now()`
 * reading is a parameter `now` (milliseconds); numbers are `real`.
 */
module MockData {
  import opened Strings

  // ---------------------------------------------------------------------------
  // Profiles

  /** A synthetic profile. `createdAt` is the creation instant in milliseconds. */
  datatype Profile = Profile(
    username: string,
    displayName: string,
    bio: string,
    followers: int,
    following: int,
    tweets: int,
    verified: bool,
    createdAt: real,
    profileImage: string,
    location: string)

  /** The eight `Math.random()` draws of one generation, in the order the source makes them. */
  datatype ProfileDraws = ProfileDraws(
    kind: real,
    followers: real,
    following: real,
    tweets: real,
    verified: real,
    age: real,
    photo: real,
    photoVariant: real)

  /** A value `Math.random()` can return. */
  predicate IsDraw(x: real)
  {
    0.0 <= x < 1.0
  }

  predicate ValidDraws(d: ProfileDraws)
  {
    IsDraw(d.kind) && IsDraw(d.followers) && IsDraw(d.following) && IsDraw(d.tweets) &&
    IsDraw(d.verified) && IsDraw(d.age) && IsDraw(d.photo) && IsDraw(d.photoVariant)
  }

  /** The three marker glyphs of the bot bio, kept as the source file spells them. */
  const FireMarker: string := "\U{F0}\U{178}\U{201D}\U{A5}"
  const GemMarker: string := "\U{F0}\U{178}\U{2019}\U{17D}"
  const RocketMarker: string := "\U{F0}\U{178}\U{161}\U{20AC}"

  // The long literals below are written in pieces: the verifier decides `c !in s` for short literals quickly.
  const BotBio: string :=
    FireMarker + " Follow for amazing content! " + GemMarker + " Crypto expert! " +
    RocketMarker + " #Bitcoin #Ethereum #ToTheMoon"
  const HumanBio: string :=
    "Software engineer " + "passionate about " + "AI and machine " + "learning. " +
    "Building the " + "future one line " + "of code at a time."
  const HumanLocation: string := "San Francisco, CA"

  /** 365 * 24 * 60 * 60 * 1000 * 3: three years in milliseconds. */
  const ThreeYearsMs: real := 94608000000.0
  /** 1000 * 60 * 60 * 24: one day in milliseconds. */
  const MsPerDay: real := 86400000.0

  /** `Math.floor(draw * span)`. */
  function ScaledFloor(draw: real, span: nat): (r: int)
    requires IsDraw(draw)
    ensures 0 <= r && (span > 0 ==> r < span)
  {
    assert draw * span as real <= 1.0 * span as real;
    (draw * span as real).Floor
  }

  /** `toUpperCase` of one character, for the ASCII letters. */
  function UpperChar(c: char): (u: char)
  {
    if 'a' <= c <= 'z' then (c as int - 'a' as int + 'A' as int) as char else c
  }

  /** `username.charAt(0).toUpperCase() + username.slice(1)`. */
  function Capitalized(s: string): (r: string)
  {
    if |s| == 0 then "" else [UpperChar(s[0])] + s[1..]
  }

  // In pieces, like the bios above, so that `'f' !in url` is quick to decide.
  const PhotoPrefix: string := "https://images." + "pexels.com/" + "photos/"
  const PhotoMiddle: string := "/pexels-photo-"
  const PhotoSuffix: string := ".jpeg?auto=" + "compress&cs=" + "tinysrgb&w=150" + "&h=150&dpr=1"

  /** The profile image URL with the two photo numbers filled in. */
  function PhotoUrl(photo: nat, variant: nat): string
  {
    PhotoPrefix + DecimalDigits(photo) + PhotoMiddle + DecimalDigits(variant) + PhotoSuffix
  }

  /** The source's random `isBot` choice: the first draw exceeds 0.7. */
  predicate BotBranch(d: ProfileDraws)
  {
    d.kind > 0.7
  }

  /** generateMockProfile(username), with the random draws and the clock as parameters. */
  function GenerateMockProfile(username: string, d: ProfileDraws, now: real): Profile
    requires ValidDraws(d)
  {
    var isBot := BotBranch(d);
    Profile(
      username,
      Capitalized(username),
      if isBot then BotBio else HumanBio,
      if isBot then ScaledFloor(d.followers, 50000) + 10000 else ScaledFloor(d.followers, 5000) + 100,
      if isBot then ScaledFloor(d.following, 10000) + 8000 else ScaledFloor(d.following, 1000) + 50,
      if isBot then ScaledFloor(d.tweets, 1000) + 5000 else ScaledFloor(d.tweets, 2000) + 100,
      d.verified > 0.9,
      now - d.age * ThreeYearsMs,
      PhotoUrl(ScaledFloor(d.photo, 1000) + 1000, ScaledFloor(d.photoVariant, 1000) + 1000),
      if isBot then "" else HumanLocation)
  }

  /** No generated image URL contains "default": the one character 'f' never occurs in it. */
  lemma {:induction false} PhotoUrlHasNoDefault(photo: nat, variant: nat)
    ensures !Contains(PhotoUrl(photo, variant), "default")
  {
    var url := PhotoUrl(photo, variant);
    var d1, d2 := DecimalDigits(photo), DecimalDigits(variant);
    DecimalDigitsShape(photo);
    DecimalDigitsShape(variant);
    assert 'f' !in PhotoPrefix && 'f' !in PhotoMiddle && 'f' !in PhotoSuffix;
    assert forall k :: 0 <= k < |d1| ==> d1[k] != 'f';
    assert forall k :: 0 <= k < |d2| ==> d2[k] != 'f';
    assert url == PhotoPrefix + d1 + PhotoMiddle + d2 + PhotoSuffix;
    assert 'f' !in url;
    if Contains(url, "default") {
      ContainsHasChar(url, "default", 2);
    }
  }

  /** The ranges of generateMockProfile in its two branches. */
  lemma GeneratedProfileRanges(username: string, d: ProfileDraws, now: real)
    requires ValidDraws(d)
    ensures var p := GenerateMockProfile(username, d, now);
      && p.username == username
      && (BotBranch(d) ==>
            10000 <= p.followers < 60000 && 8000 <= p.following < 18000 &&
            5000 <= p.tweets < 6000 && p.location == "" && p.bio == BotBio)
      && (!BotBranch(d) ==>
            100 <= p.followers < 5100 && 50 <= p.following < 1050 &&
            100 <= p.tweets < 2100 && p.location != "" && p.bio == HumanBio)
      && |p.displayName| == |username|
      && (|username| > 0 ==> p.displayName[0] == UpperChar(username[0]) && p.displayName[1..] == username[1..])
      && now - ThreeYearsMs < p.createdAt <= now
      && !Contains(p.profileImage, "default")
  {
    var p := GenerateMockProfile(username, d, now);
    PhotoUrlHasNoDefault(ScaledFloor(d.photo, 1000) + 1000, ScaledFloor(d.photoVariant, 1000) + 1000);
    assert p.location != "" <== !BotBranch(d) by {
      if !BotBranch(d) { assert p.location[0] == 'S'; }
    }
    assert d.age * ThreeYearsMs < ThreeYearsMs;
  }

  // ---------------------------------------------------------------------------
  // Scoring

  function MaxReal(a: real, b: real): real
  {
    if a >= b then a else b
  }

  function MinReal(a: real, b: real): real
  {
    if a <= b then a else b
  }

  /** The bio contains one of the three marker glyphs. */
  predicate SuspiciousBio(bio: string)
  {
    Contains(bio, FireMarker) || Contains(bio, GemMarker) || Contains(bio, RocketMarker)
  }

  /** The generated bot bio is suspicious and the generated human bio is not. */
  lemma {:induction false} BioMarkers()
    ensures SuspiciousBio(BotBio)
    ensures !SuspiciousBio(HumanBio)
  {
    assert BotBio[0..|FireMarker|] == FireMarker;
    assert OccursAt(BotBio, FireMarker, 0);
    assert '\U{F0}' !in HumanBio;
    if Contains(HumanBio, FireMarker) { ContainsHasChar(HumanBio, FireMarker, 0); }
    if Contains(HumanBio, GemMarker) { ContainsHasChar(HumanBio, GemMarker, 0); }
    if Contains(HumanBio, RocketMarker) { ContainsHasChar(HumanBio, RocketMarker, 0); }
  }

  /** The derived quantities generatePrediction reads off a profile. */
  datatype Indicators = Indicators(
    ratio: real,
    tweetsPerDay: real,
    ageDays: real,
    defaultImage: bool,
    suspiciousBio: bool,
    hasLocation: bool,
    verified: bool)

  function IndicatorsOf(p: Profile, now: real): Indicators
  {
    var ageDays := (now - p.createdAt) / MsPerDay;
    Indicators(
      p.following as real / MaxReal(p.followers as real, 1.0),
      p.tweets as real / MaxReal(ageDays, 1.0),
      ageDays,
      Contains(p.profileImage, "default"),
      SuspiciousBio(p.bio),
      p.location != "",
      p.verified)
  }

  /** Neither ratio divides by less than one; with no followers the ratio is the following count. */
  lemma RatioDenominators(p: Profile, now: real)
    ensures MaxReal(p.followers as real, 1.0) >= 1.0
    ensures MaxReal((now - p.createdAt) / MsPerDay, 1.0) >= 1.0
    ensures p.followers == 0 ==> IndicatorsOf(p, now).ratio == p.following as real
  {
  }

  /** One threshold-gated term of the score. */
  function Increment(holds: bool, weight: real): real
  {
    if holds then weight else 0.0
  }

  /** The raw bot score: five gated increments 0.3, 0.2, 0.15, 0.25 and 0.1. */
  function BotScore(ind: Indicators): (s: real)
    ensures 0.0 <= s <= 1.0
  {
    Increment(ind.ratio > 2.0, 0.3) +
    Increment(ind.tweetsPerDay > 10.0, 0.2) +
    Increment(ind.defaultImage, 0.15) +
    Increment(ind.suspiciousBio, 0.25) +
    Increment(!ind.hasLocation, 0.1)
  }

  /** The score is zero exactly when no indicator fires and one exactly when all fire. */
  lemma BotScoreExtremes(ind: Indicators)
    ensures BotScore(ind) == 0.0 <==>
      !(ind.ratio > 2.0) && !(ind.tweetsPerDay > 10.0) && !ind.defaultImage && !ind.suspiciousBio && ind.hasLocation
    ensures BotScore(ind) == 1.0 <==>
      ind.ratio > 2.0 && ind.tweetsPerDay > 10.0 && ind.defaultImage && ind.suspiciousBio && !ind.hasLocation
  {
  }

  /** `Math.min(0.95, Math.max(0.55, x))`. */
  function Clamp(x: real): (r: real)
    ensures 0.55 <= r <= 0.95
    ensures 0.55 <= x <= 0.95 ==> r == x
  {
    MinReal(0.95, MaxReal(0.55, x))
  }

  /** The reported confidence: the score plus a jitter of 0.2 times a draw, clamped. */
  function Confidence(ind: Indicators, draw: real): real
  {
    Clamp(BotScore(ind) + draw * 0.2)
  }

  datatype Label = Bot | Human

  function LabelOf(confidence: real): Label
  {
    if confidence > 0.75 then Bot else Human
  }

  /** The label is Bot exactly above 0.75; 0.75 itself is Human. */
  lemma LabelThreshold(confidence: real)
    ensures LabelOf(confidence) == Bot <==> confidence > 0.75
    ensures LabelOf(0.75) == Human
  {
  }

  // ---------------------------------------------------------------------------
  // Explanations

  /** One key of a JavaScript object with its value; a sequence of these keeps insertion order. */
  datatype Entry = Entry(name: string, value: real)

  datatype LimeFeature = LimeFeature(feature: string, value: real, weight: real)

  datatype Prediction = Prediction(
    prediction: Label,
    confidence: real,
    features: seq<Entry>,
    shapValues: seq<Entry>,
    limeExplanation: seq<LimeFeature>)

  const RatioName: string := "Follower/Following Ratio"
  const TweetsName: string := "Tweets per Day"
  const BioName: string := "Bio Sentiment Score"
  const CompletenessName: string := "Profile Completeness"
  const AgeName: string := "Account Age (days)"
  const VerificationName: string := "Verification Status"

  function FeaturesOf(ind: Indicators): seq<Entry>
  {
    [ Entry(RatioName, ind.ratio),
      Entry(TweetsName, ind.tweetsPerDay),
      Entry(BioName, if ind.suspiciousBio then -0.5 else 0.3),
      Entry(CompletenessName, if ind.hasLocation then 0.8 else 0.3),
      Entry(AgeName, ind.ageDays),
      Entry(VerificationName, if ind.verified then 1.0 else 0.0) ]
  }

  function ShapValuesOf(ind: Indicators): seq<Entry>
  {
    [ Entry(RatioName, (ind.ratio - 1.0) * 0.4),
      Entry(TweetsName, MinReal(ind.tweetsPerDay / 10.0, 1.0) * 0.3),
      Entry(BioName, if ind.suspiciousBio then 0.25 else -0.15),
      Entry(CompletenessName, if ind.hasLocation then -0.2 else 0.15),
      Entry(AgeName, if ind.ageDays < 30.0 then 0.2 else -0.1),
      Entry(VerificationName, if ind.verified then -0.3 else 0.1) ]
  }

  function LimeExplanationOf(ind: Indicators): seq<LimeFeature>
  {
    [ LimeFeature(RatioName, ind.ratio, if ind.ratio > 2.0 then 0.8 else -0.3),
      LimeFeature("Bio Content Analysis", if ind.suspiciousBio then 1.0 else 0.0, if ind.suspiciousBio then 0.6 else -0.2),
      LimeFeature("Posting Frequency", ind.tweetsPerDay, if ind.tweetsPerDay > 10.0 then 0.7 else -0.1),
      LimeFeature(CompletenessName, if ind.hasLocation then 1.0 else 0.0, if ind.hasLocation then -0.4 else 0.3) ]
  }

  /** The LIME list has four rows in a fixed order, each weight positive exactly when its bot condition holds. */
  lemma LimeExplanationShape(ind: Indicators)
    ensures var lime := LimeExplanationOf(ind);
      && |lime| == 4
      && lime[0].feature == RatioName && lime[1].feature == "Bio Content Analysis"
      && lime[2].feature == "Posting Frequency" && lime[3].feature == CompletenessName
      && (lime[0].weight > 0.0 <==> ind.ratio > 2.0)
      && (lime[1].weight > 0.0 <==> ind.suspiciousBio)
      && (lime[2].weight > 0.0 <==> ind.tweetsPerDay > 10.0)
      && (lime[3].weight > 0.0 <==> !ind.hasLocation)
      && (forall i :: 0 <= i < 4 ==> lime[i].weight != 0.0)
  {
  }

  /** The every-row-non-zero facts the charts rely on: the bio entry never vanishes. */
  lemma ShapValuesShape(ind: Indicators)
    ensures var shap := ShapValuesOf(ind);
      && |shap| == 6 && shap[2].name == BioName && shap[2].value != 0.0
      && (shap[2].value > 0.0 <==> ind.suspiciousBio)
      && (shap[3].value > 0.0 <==> !ind.hasLocation)
      && (shap[5].value > 0.0 <==> !ind.verified)
  {
  }

  /** The prediction generatePrediction specifies, built from the indicators of the profile. */
  function PredictionOf(profile: Profile, now: real, draw: real): Prediction
  {
    var ind := IndicatorsOf(profile, now);
    var confidence := Confidence(ind, draw);
    Prediction(LabelOf(confidence), confidence, FeaturesOf(ind), ShapValuesOf(ind), LimeExplanationOf(ind))
  }

  /** generatePrediction(profile): the successive `botScore +=` steps, then the clamp and the label. */
  method GeneratePrediction(profile: Profile, now: real, draw: real) returns (p: Prediction)
    requires IsDraw(draw)
    ensures p == PredictionOf(profile, now, draw)
    ensures 0.55 <= p.confidence <= 0.95
    ensures p.prediction == Bot <==> p.confidence > 0.75
  {
    var followerRatio := profile.following as real / MaxReal(profile.followers as real, 1.0);
    var ageDays := (now - profile.createdAt) / MsPerDay;
    var tweetsPerDay := profile.tweets as real / MaxReal(ageDays, 1.0);
    var hasDefaultProfileImage := Contains(profile.profileImage, "default");
    var suspiciousBio := SuspiciousBio(profile.bio);

    var botScore := 0.0;
    botScore := botScore + Increment(followerRatio > 2.0, 0.3);
    botScore := botScore + Increment(tweetsPerDay > 10.0, 0.2);
    botScore := botScore + Increment(hasDefaultProfileImage, 0.15);
    botScore := botScore + Increment(suspiciousBio, 0.25);
    botScore := botScore + Increment(profile.location == "", 0.1);

    var confidence := Clamp(botScore + draw * 0.2);
    var isBot := confidence > 0.75;

    var ind := Indicators(followerRatio, tweetsPerDay, ageDays, hasDefaultProfileImage,
                          suspiciousBio, profile.location != "", profile.verified);
    p := Prediction(if isBot then Bot else Human, confidence,
                    FeaturesOf(ind), ShapValuesOf(ind), LimeExplanationOf(ind));
  }

  /**
   * Every generated profile is labelled Human: a bot-branch profile never has a
   * ratio above 2 (at most 17999 / 10000), a human-branch profile has neither a
   * suspicious bio nor an empty location, and no image is a default one, so the
   * score is at most 0.55 (0.5 in the human branch) and the confidence stays below 0.75.
   */
  lemma GeneratedProfilesAreLabelledHuman(username: string, d: ProfileDraws, bornAt: real, now: real, draw: real)
    requires ValidDraws(d) && IsDraw(draw)
    ensures BotScore(IndicatorsOf(GenerateMockProfile(username, d, bornAt), now)) <= 0.55
    ensures !BotBranch(d) ==> BotScore(IndicatorsOf(GenerateMockProfile(username, d, bornAt), now)) <= 0.5
    ensures Confidence(IndicatorsOf(GenerateMockProfile(username, d, bornAt), now), draw) < 0.75
    ensures LabelOf(Confidence(IndicatorsOf(GenerateMockProfile(username, d, bornAt), now), draw)) == Human
  {
    var p := GenerateMockProfile(username, d, bornAt);
    var ind := IndicatorsOf(p, now);
    GeneratedProfileRanges(username, d, bornAt);
    BioMarkers();
    if BotBranch(d) {
      var denominator := MaxReal(p.followers as real, 1.0);
      assert denominator == p.followers as real >= 10000.0;
      assert ind.ratio * denominator == p.following as real;
      assert ind.ratio <= 2.0;
    }
  }

  /** A bot-like profile scores 0.85 before the jitter and is labelled Bot. */
  lemma ScenarioBotLike(now: real, draw: real)
    requires IsDraw(draw)
    ensures var p := Profile("u", "U", BotBio, 100, 300, 6000, false, now - 10.0 * MsPerDay, PhotoUrl(1000, 1000), "");
      && BotScore(IndicatorsOf(p, now)) == 0.85
      && 0.85 <= Confidence(IndicatorsOf(p, now), draw) <= 0.95
      && LabelOf(Confidence(IndicatorsOf(p, now), draw)) == Bot
      && (Confidence(IndicatorsOf(p, now), draw) == 0.95 <==> draw >= 0.5)
  {
    var p := Profile("u", "U", BotBio, 100, 300, 6000, false, now - 10.0 * MsPerDay, PhotoUrl(1000, 1000), "");
    BioMarkers();
    PhotoUrlHasNoDefault(1000, 1000);
    assert (now - p.createdAt) / MsPerDay == 10.0;
  }

  /** A human-like profile scores 0 and clamps to the floor 0.55. */
  lemma ScenarioHumanLike(now: real, draw: real)
    requires IsDraw(draw)
    ensures var p := Profile("u", "U", HumanBio, 2000, 200, 300, false, now - 365.0 * MsPerDay, PhotoUrl(1000, 1000), HumanLocation);
      && BotScore(IndicatorsOf(p, now)) == 0.0
      && Confidence(IndicatorsOf(p, now), draw) == 0.55
      && LabelOf(Confidence(IndicatorsOf(p, now), draw)) == Human
  {
    var p := Profile("u", "U", HumanBio, 2000, 200, 300, false, now - 365.0 * MsPerDay, PhotoUrl(1000, 1000), HumanLocation);
    BioMarkers();
    PhotoUrlHasNoDefault(1000, 1000);
    assert (now - p.createdAt) / MsPerDay == 365.0;
    assert HumanLocation != "" by { assert HumanLocation[0] == 'S'; }
  }

  // ---------------------------------------------------------------------------
  // Model metrics

  datatype ModelMetrics = ModelMetrics(accuracy: real, precision: real, recall: real, f1Score: real, auc: real)

  function GetModelMetrics(): ModelMetrics
  {
    ModelMetrics(0.923, 0.891, 0.876, 0.883, 0.945)
  }

  // ---------------------------------------------------------------------------
  // Network

  datatype NodeType = UserNode | FollowerNode | FollowingNode
  datatype Point = Point(x: real, y: real)
  datatype NetworkNode = NetworkNode(id: string, name: string, nodeType: NodeType, x: real, y: real)
  datatype NetworkEdge = NetworkEdge(source: string, target: string)

  function FollowerId(i: nat): string { "follower_" + DecimalDigits(i) }
  function FollowingId(i: nat): string { "following_" + DecimalDigits(i) }

  /** The generated ids never repeat: followers differ by number, and no follower id is a following id. */
  lemma NetworkIdsDistinct(i: nat, j: nat)
    ensures i != j ==> FollowerId(i) != FollowerId(j) && FollowingId(i) != FollowingId(j)
    ensures FollowerId(i) != FollowingId(j)
  {
    if FollowerId(i) == FollowerId(j) {
      assert FollowerId(i)[9..] == DecimalDigits(i) && FollowerId(j)[9..] == DecimalDigits(j);
      DecimalDigitsInjective(i, j);
    }
    if FollowingId(i) == FollowingId(j) {
      assert FollowingId(i)[10..] == DecimalDigits(i) && FollowingId(j)[10..] == DecimalDigits(j);
      DecimalDigitsInjective(i, j);
    }
    assert FollowerId(i)[6] == 'e' && FollowingId(j)[6] == 'i';
  }

  /**
   * The i-th of n nodes on a ring of the given radius around (200, 200);
   * `polar(fraction, radius)` stands for (cos(2 pi fraction) * radius, sin(2 pi fraction) * radius).
   */
  function RingNode(id: string, name: string, nodeType: NodeType, i: nat, n: nat, radius: real,
                    polar: (real, real) -> Point): NetworkNode
    requires n > 0
  {
    var offset := polar(i as real / n as real, radius);
    NetworkNode(id, name, nodeType, 200.0 + offset.x, 200.0 + offset.y)
  }

  function FollowerNodeAt(i: nat, polar: (real, real) -> Point): NetworkNode
  {
    RingNode(FollowerId(i), "Follower " + DecimalDigits(i + 1), FollowerNode, i, 8, 100.0, polar)
  }

  function FollowingNodeAt(i: nat, polar: (real, real) -> Point): NetworkNode
  {
    RingNode(FollowingId(i), "Following " + DecimalDigits(i + 1), FollowingNode, i, 6, 150.0, polar)
  }

  /** generateNetworkData(username): a star of 8 followers and 6 followees around the user. */
  method GenerateNetworkData(username: string, polar: (real, real) -> Point)
    returns (nodes: seq<NetworkNode>, edges: seq<NetworkEdge>)
    ensures |nodes| == 15 && |edges| == 14
    ensures nodes[0] == NetworkNode(username, username, UserNode, 200.0, 200.0)
    ensures forall k :: 1 <= k < 9 ==> nodes[k] == FollowerNodeAt(k - 1, polar)
    ensures forall k :: 9 <= k < 15 ==> nodes[k] == FollowingNodeAt(k - 9, polar)
    ensures forall k :: 0 <= k < 8 ==> edges[k] == NetworkEdge(FollowerId(k), username)
    ensures forall k :: 8 <= k < 14 ==> edges[k] == NetworkEdge(username, FollowingId(k - 8))
    ensures forall k :: 0 <= k < |edges| ==> edges[k].source == username || edges[k].target == username
  {
    nodes := [NetworkNode(username, username, UserNode, 200.0, 200.0)];
    edges := [];
    for i := 0 to 8
      invariant |nodes| == 1 + i && |edges| == i
      invariant nodes[0] == NetworkNode(username, username, UserNode, 200.0, 200.0)
      invariant forall k :: 1 <= k < 1 + i ==> nodes[k] == FollowerNodeAt(k - 1, polar)
      invariant forall k :: 0 <= k < i ==> edges[k] == NetworkEdge(FollowerId(k), username)
    {
      nodes := nodes + [FollowerNodeAt(i, polar)];
      edges := edges + [NetworkEdge(FollowerId(i), username)];
    }
    ghost var withFollowers, followerEdges := nodes, edges;
    for i := 0 to 6
      invariant |nodes| == 9 + i && |edges| == 8 + i
      invariant nodes[..9] == withFollowers && edges[..8] == followerEdges
      invariant forall k :: 9 <= k < 9 + i ==> nodes[k] == FollowingNodeAt(k - 9, polar)
      invariant forall k :: 8 <= k < 8 + i ==> edges[k] == NetworkEdge(username, FollowingId(k - 8))
    {
      nodes := nodes + [FollowingNodeAt(i, polar)];
      edges := edges + [NetworkEdge(username, FollowingId(i))];
    }
    assert forall k :: 0 <= k < 9 ==> nodes[k] == withFollowers[k];
    assert forall k :: 0 <= k < 8 ==> edges[k] == followerEdges[k];
  }
}
