/** The hourly alert scan of `checkWeatherAlerts`, the per-hour highlight
    computed by `displayWeather`, and the alert notifications they lead to.
    The hour of the day (`new Date().getHours()`) is the parameter
    `currentHour`. */
module Alerts {
  import opened Wrappers
  import opened Text
  import opened Weather
  import opened Notify

  /** How many hours after the current one are scanned and displayed. */
  const LOOKAHEAD: nat := 4

  /** The hourly forecast: parallel arrays indexed by hour of the day. */
  datatype HourlySeries = HourlySeries(time: seq<string>, temperature: seq<real>, weatherCode: seq<int>)

  type Hourly = h: HourlySeries | |h.temperature| == |h.time| && |h.weatherCode| == |h.time|
    witness HourlySeries([], [], [])

  /** A lead hour is scanned when it is one of 1..LOOKAHEAD and the hour it
      points to lies inside the series. */
  predicate InWindow(h: Hourly, currentHour: nat, lead: nat)
  {
    1 <= lead <= LOOKAHEAD && currentHour + lead < |h.time|
  }

  datatype Condition = Rainy | Hot

  /** The scanned hour `currentHour + lead` meets the condition. */
  predicate Hits(h: Hourly, currentHour: nat, c: Condition, lead: nat)
  {
    && InWindow(h, currentHour, lead)
    && match c
       case Rainy => IsRainCode(h.weatherCode[currentHour + lead])
       case Hot => IsHot(h.temperature[currentHour + lead])
  }

  /** The smallest lead in lo..hi-1 that meets the condition. */
  function FirstHit(h: Hourly, currentHour: nat, c: Condition, lo: nat, hi: nat): (r: Option<nat>)
    decreases hi - lo
    ensures r.Some? ==> lo <= r.value < hi && Hits(h, currentHour, c, r.value)
    ensures r.Some? ==> forall lead :: lo <= lead < r.value ==> !Hits(h, currentHour, c, lead)
    ensures r.None? ==> forall lead :: lo <= lead < hi ==> !Hits(h, currentHour, c, lead)
  {
    if lo >= hi then None
    else if Hits(h, currentHour, c, lo) then Some(lo)
    else FirstHit(h, currentHour, c, lo + 1, hi)
  }

  /** Widening the range by one lead changes the first hit only when there
      was none and the new lead hits. */
  lemma {:induction false} FirstHitExtend(h: Hourly, currentHour: nat, c: Condition, lo: nat, hi: nat)
    requires lo <= hi
    ensures FirstHit(h, currentHour, c, lo, hi + 1) ==
      (if FirstHit(h, currentHour, c, lo, hi).Some? then FirstHit(h, currentHour, c, lo, hi)
       else if Hits(h, currentHour, c, hi) then Some(hi)
       else None)
    decreases hi - lo
  {
    if lo < hi && !Hits(h, currentHour, c, lo) {
      FirstHitExtend(h, currentHour, c, lo + 1, hi);
    }
  }

  /** The rain finding: the earliest lead hour in the window whose weather
      code is a rain code, and none when no scanned hour has one. */
  function RainLead(h: Hourly, currentHour: nat): (lead: Option<nat>)
    ensures lead.Some? ==> 1 <= lead.value <= LOOKAHEAD && Hits(h, currentHour, Rainy, lead.value)
    ensures lead.Some? ==> forall l :: 1 <= l < lead.value ==> !Hits(h, currentHour, Rainy, l)
    ensures lead.None? <==> forall l :: !Hits(h, currentHour, Rainy, l)
  {
    FirstHit(h, currentHour, Rainy, 1, LOOKAHEAD + 1)
  }

  /** The lead hour the temperature finding comes from: the earliest scanned
      hour strictly above the threshold. */
  function TempLead(h: Hourly, currentHour: nat): (lead: Option<nat>)
    ensures lead.Some? ==> 1 <= lead.value <= LOOKAHEAD && Hits(h, currentHour, Hot, lead.value)
    ensures lead.Some? ==> forall l :: 1 <= l < lead.value ==> !Hits(h, currentHour, Hot, l)
    ensures lead.None? <==> forall l :: !Hits(h, currentHour, Hot, l)
  {
    FirstHit(h, currentHour, Hot, 1, LOOKAHEAD + 1)
  }

  /** The rounded temperature of the hour `lead` points to, if any. */
  function RoundedAt(h: Hourly, currentHour: nat, lead: Option<nat>): Option<int>
    requires lead.Some? ==> currentHour + lead.value < |h.time|
  {
    match lead
    case None => None
    case Some(l) => Some(Round(h.temperature[currentHour + l]))
  }

  /** `highTemp`: the rounded temperature of the temperature finding. */
  function HighTemp(h: Hourly, currentHour: nat): (t: Option<int>)
    ensures t.Some? ==> t.value >= TEMP_THRESHOLD
    ensures t.None? <==> TempLead(h, currentHour).None?
    ensures t.Some? ==> t.value == Round(h.temperature[currentHour + TempLead(h, currentHour).value])
  {
    match TempLead(h, currentHour)
    case None => None
    case Some(l) =>
      HotRoundsToAtLeastThreshold(h.temperature[currentHour + l]);
      Some(Round(h.temperature[currentHour + l]))
  }

  /** The rain finding looks at weather codes only: changing temperatures
      cannot change it. */
  lemma {:induction false} RainIgnoresTemperatures(h1: Hourly, h2: Hourly, currentHour: nat, lo: nat, hi: nat)
    requires |h1.time| == |h2.time| && h1.weatherCode == h2.weatherCode
    ensures FirstHit(h1, currentHour, Rainy, lo, hi) == FirstHit(h2, currentHour, Rainy, lo, hi)
    decreases hi - lo
  {
    if lo < hi {
      assert Hits(h1, currentHour, Rainy, lo) == Hits(h2, currentHour, Rainy, lo);
      RainIgnoresTemperatures(h1, h2, currentHour, lo + 1, hi);
    }
  }

  /** The temperature finding looks at temperatures only: changing weather
      codes cannot change it. */
  lemma {:induction false} TempIgnoresWeatherCodes(h1: Hourly, h2: Hourly, currentHour: nat, lo: nat, hi: nat)
    requires |h1.time| == |h2.time| && h1.temperature == h2.temperature
    ensures FirstHit(h1, currentHour, Hot, lo, hi) == FirstHit(h2, currentHour, Hot, lo, hi)
    decreases hi - lo
  {
    if lo < hi {
      assert Hits(h1, currentHour, Hot, lo) == Hits(h2, currentHour, Hot, lo);
      TempIgnoresWeatherCodes(h1, h2, currentHour, lo + 1, hi);
    }
  }

  /** The scan loop of `checkWeatherAlerts`: lead hours 1..4 in increasing
      order, skipping those past the end of the series; the first rain code
      sets `rainHour`, and independently the first temperature above the
      threshold sets `highTemp` (the flags `rainAlert` and `tempAlert` are
      `rainHour.Some?` and `highTemp.Some?`). */
  method ScanHours(h: Hourly, currentHour: nat) returns (rainHour: Option<nat>, highTemp: Option<int>)
    ensures rainHour == RainLead(h, currentHour)
    ensures highTemp == HighTemp(h, currentHour)
  {
    rainHour, highTemp := None, None;
    for i := 1 to LOOKAHEAD + 1
      invariant rainHour == FirstHit(h, currentHour, Rainy, 1, i)
      invariant highTemp == RoundedAt(h, currentHour, FirstHit(h, currentHour, Hot, 1, i))
    {
      FirstHitExtend(h, currentHour, Rainy, 1, i);
      FirstHitExtend(h, currentHour, Hot, 1, i);
      var hourIndex := currentHour + i;
      if hourIndex < |h.time| {
        var code := h.weatherCode[hourIndex];
        var temp := h.temperature[hourIndex];
        assert Hits(h, currentHour, Rainy, i) == IsRainCode(code);
        assert Hits(h, currentHour, Hot, i) == (temp > TEMP_THRESHOLD as real);
        if rainHour.None? && IsRainCode(code) {
          rainHour := Some(i);
        }
        if highTemp.None? && temp > TEMP_THRESHOLD as real {
          highTemp := Some(Round(temp));
        }
      } else {
        assert !Hits(h, currentHour, Rainy, i) && !Hits(h, currentHour, Hot, i);
      }
    }
  }

  /** The body of the rain notification; the word for "hours" takes a
      plural 's' exactly when the rain is more than one hour away. */
  function RainMessage(hours: nat): (m: string)
    ensures |m| >= 3 && m[|m| - 2..] == " !"
    ensures m[|m| - 3] == 's' <==> hours > 1
    ensures |m| >= |RAIN_LEAD_IN| + |NatToString(hours)| && m[..|RAIN_LEAD_IN|] == RAIN_LEAD_IN
    ensures DecimalValue(m[|RAIN_LEAD_IN|..|RAIN_LEAD_IN| + |NatToString(hours)|]) == hours
  {
    var digits := NatToString(hours);
    var tail := " heure" + (if hours > 1 then "s" else "") + " !";
    assert tail == if hours > 1 then " heures !" else " heure !";
    DecimalRoundTrip(hours);
    Framed(RAIN_LEAD_IN, digits, tail);
    TailOfConcat(RAIN_LEAD_IN + digits, tail);
    RAIN_LEAD_IN + digits + tail
  }

  /** Where the three parts of a concatenation lie in it. */
  lemma Framed(pre: string, mid: string, post: string)
    ensures var m := pre + mid + post;
      && m[..|pre|] == pre && m[|pre|..|pre| + |mid|] == mid && m[|pre| + |mid|..] == post
  {
  }

  /** The last three characters of a concatenation are those of a tail at least that long. */
  lemma TailOfConcat(front: string, tail: string)
    requires |tail| >= 3
    ensures var m := front + tail;
      && m[|m| - 2..] == tail[|tail| - 2..] && m[|m| - 3] == tail[|tail| - 3]
  {
  }

  /** The text of the rain notification before the number of hours. */
  const RAIN_LEAD_IN := "\U{1F327}\U{FE0F} Pluie prévue dans "

  /** The body of the temperature notification. */
  function TempMessage(highTemp: int): (m: string)
    ensures |m| >= |IntToString(highTemp)| + 4
    ensures m[|m| - 3..] == "°C)" && m[|m| - |IntToString(highTemp)| - 4] == '('
    ensures SignedValue(m[|m| - |IntToString(highTemp)| - 3..|m| - 3]) == highTemp
  {
    var digits := IntToString(highTemp);
    var head := "\U{1F321}\U{FE0F} Température supérieure à " + IntToString(TEMP_THRESHOLD) + "°C prévue (";
    var m := head + digits + "°C)";
    IntRoundTrip(highTemp);
    assert m[|head| - 1] == head[|head| - 1] == '(';
    assert m[|head|..|head| + |digits|] == digits;
    assert m[|m| - 3..] == "°C)";
    m
  }

  /** The notifications sent after the scan: one tagged "rain" when there is
      a rain finding, then one tagged "temp" when there is a temperature
      finding, and none when there is neither. */
  function AlertNotifications(cityName: string, rainHour: Option<nat>, highTemp: Option<int>): (ns: seq<Notification>)
    ensures |ns| == (if rainHour.Some? then 1 else 0) + (if highTemp.Some? then 1 else 0)
    ensures forall i :: 0 <= i < |ns| ==> ns[i].title == cityName
    ensures forall i :: 0 <= i < |ns| ==> (ns[i].tag == "rain" <==> i == 0 && rainHour.Some?)
    ensures forall i :: 0 <= i < |ns| ==> (ns[i].tag == "temp" <==> i == |ns| - 1 && highTemp.Some?)
    ensures rainHour.Some? ==> ns[0].body == RainMessage(rainHour.value)
    ensures highTemp.Some? ==> ns[|ns| - 1].body == TempMessage(highTemp.value)
  {
    match (rainHour, highTemp)
    case (Some(lead), Some(temp)) =>
      [Notification(cityName, RainMessage(lead), "rain"), Notification(cityName, TempMessage(temp), "temp")]
    case (Some(lead), None) => [Notification(cityName, RainMessage(lead), "rain")]
    case (None, Some(temp)) => [Notification(cityName, TempMessage(temp), "temp")]
    case (None, None) => []
  }

  /** `checkWeatherAlerts`: scans the window and returns the notifications it
      sends, in the order it sends them. */
  method CheckWeatherAlerts(h: Hourly, currentHour: nat, cityName: string) returns (sent: seq<Notification>)
    ensures sent == AlertNotifications(cityName, RainLead(h, currentHour), HighTemp(h, currentHour))
  {
    var rainHour, highTemp := ScanHours(h, currentHour);
    sent := [];
    if rainHour.Some? {
      sent := sent + [Notification(cityName, RainMessage(rainHour.value), "rain")];
    }
    if highTemp.Some? {
      sent := sent + [Notification(cityName, TempMessage(highTemp.value), "temp")];
    }
  }

  /** The CSS class `displayWeather` gives an hour: '' , 'rain-alert' or 'temp-alert'. */
  datatype Highlight = NoHighlight | RainHighlight | TempHighlight

  /** One entry of the hourly list: its time stamp, icon, rounded temperature and highlight. */
  datatype HourlyItem = HourlyItem(time: string, icon: Icon, temperature: int, highlight: Highlight)

  /** Rain takes precedence over heat in the highlight of an hour. */
  function Classify(code: int, temperature: real): (c: Highlight)
    ensures c == RainHighlight <==> IsRainCode(code)
    ensures c == TempHighlight <==> !IsRainCode(code) && IsHot(temperature)
  {
    if IsRainCode(code) then RainHighlight
    else if IsHot(temperature) then TempHighlight
    else NoHighlight
  }

  /** The list entry for the hour at `index`. */
  function ItemAt(h: Hourly, index: nat): (it: HourlyItem)
    requires index < |h.time|
    ensures it.time == h.time[index]
    ensures it.icon == Emoji(h.weatherCode[index])
    ensures ShowsPrecipitation(it.icon) <==> IsRainCode(h.weatherCode[index])
    ensures it.temperature as real - 0.5 <= h.temperature[index] < it.temperature as real + 0.5
    ensures it.highlight == RainHighlight <==> IsRainCode(h.weatherCode[index])
    ensures it.highlight == TempHighlight <==> !IsRainCode(h.weatherCode[index]) && IsHot(h.temperature[index])
  {
    var code := h.weatherCode[index];
    var temp := h.temperature[index];
    HourlyItem(h.time[index], Emoji(code), Round(temp), Classify(code, temp))
  }

  /** How many lead hours are inside the series: the window is always the
      leads 1..WindowSize, with no gap. */
  function WindowSize(h: Hourly, currentHour: nat): (n: nat)
    ensures n <= LOOKAHEAD
    ensures forall lead: nat :: InWindow(h, currentHour, lead) <==> 1 <= lead <= n
  {
    if currentHour + 1 >= |h.time| then 0
    else if |h.time| - currentHour - 1 < LOOKAHEAD then |h.time| - currentHour - 1
    else LOOKAHEAD
  }

  /** The hourly-list loop of `displayWeather`: one entry per scanned hour
      inside the series, in lead order. */
  method HourlyItems(h: Hourly, currentHour: nat) returns (items: seq<HourlyItem>)
    ensures |items| == WindowSize(h, currentHour)
    ensures forall k :: 0 <= k < |items| ==>
      currentHour + k + 1 < |h.time| && items[k] == ItemAt(h, currentHour + k + 1)
  {
    items := [];
    ghost var inRange := if currentHour + 1 >= |h.time| then 0 else |h.time| - currentHour - 1;
    for i := 0 to LOOKAHEAD
      invariant |items| == if inRange < i then inRange else i
      invariant ListsHours(items, h, currentHour)
    {
      var hourIndex := currentHour + i + 1;
      if hourIndex < |h.time| {
        ListsNext(items, h, currentHour);
        items := items + [ItemAt(h, hourIndex)];
      }
    }
    ListsHoursMeans(items, h, currentHour);
  }

  /** `items` holds the items of the hours after `currentHour`, one per hour, in order. */
  predicate ListsHours(items: seq<HourlyItem>, h: Hourly, currentHour: nat)
    decreases |items|
  {
    || items == []
    || (&& ListsHours(items[..|items| - 1], h, currentHour)
        && currentHour + |items| < |h.time|
        && items[|items| - 1] == ItemAt(h, currentHour + |items|))
  }

  lemma ListsNext(items: seq<HourlyItem>, h: Hourly, currentHour: nat)
    requires ListsHours(items, h, currentHour) && currentHour + |items| + 1 < |h.time|
    ensures ListsHours(items + [ItemAt(h, currentHour + |items| + 1)], h, currentHour)
  {
    var next := items + [ItemAt(h, currentHour + |items| + 1)];
    assert next[..|items|] == items;
  }

  lemma {:induction false} ListsHoursMeans(items: seq<HourlyItem>, h: Hourly, currentHour: nat)
    requires ListsHours(items, h, currentHour)
    ensures forall k :: 0 <= k < |items| ==>
      currentHour + k + 1 < |h.time| && items[k] == ItemAt(h, currentHour + k + 1)
    decreases |items|
  {
    if items != [] {
      var init := items[..|items| - 1];
      ListsHoursMeans(init, h, currentHour);
      forall k | 0 <= k < |items|
        ensures currentHour + k + 1 < |h.time| && items[k] == ItemAt(h, currentHour + k + 1)
      {
        if k < |init| {
          assert items[k] == init[k];
        }
      }
    }
  }

  /** The highlighted list agrees with the alerts: a scanned hour is
      highlighted for rain exactly when it raises the rain condition, the
      rain finding points at the first such hour, and the hour behind the
      temperature finding is highlighted (for heat, or for rain when it
      also rains then). */
  lemma HighlightsAgreeWithFindings(h: Hourly, currentHour: nat)
    ensures forall lead :: InWindow(h, currentHour, lead) ==>
      (ItemAt(h, currentHour + lead).highlight == RainHighlight <==> Hits(h, currentHour, Rainy, lead))
    ensures RainLead(h, currentHour).Some? ==>
      ItemAt(h, currentHour + RainLead(h, currentHour).value).highlight == RainHighlight
    ensures TempLead(h, currentHour).Some? ==>
      ItemAt(h, currentHour + TempLead(h, currentHour).value).highlight != NoHighlight
  {
  }

  /** Rain two hours ahead, but not one hour ahead, is reported as two hours away. */
  lemma RainInSecondHour(h: Hourly, currentHour: nat)
    requires currentHour + 2 < |h.time|
    requires !IsRainCode(h.weatherCode[currentHour + 1]) && IsRainCode(h.weatherCode[currentHour + 2])
    ensures RainLead(h, currentHour) == Some(2)
  {
    assert Hits(h, currentHour, Rainy, 2);
  }

  /** No rain code and no hot hour in the window: nothing is sent. */
  lemma QuietWindowSendsNothing(h: Hourly, currentHour: nat, cityName: string)
    requires forall lead :: InWindow(h, currentHour, lead) ==>
      !IsRainCode(h.weatherCode[currentHour + lead]) && !IsHot(h.temperature[currentHour + lead])
    ensures AlertNotifications(cityName, RainLead(h, currentHour), HighTemp(h, currentHour)) == []
  {
    assert forall l :: !Hits(h, currentHour, Rainy, l) && !Hits(h, currentHour, Hot, l);
  }
}
