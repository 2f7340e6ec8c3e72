/** `getInterval` (server/index.js:90-101): the sampling interval the data
    provider is asked for, chosen from the requested period code. */
module Interval {

  /** The period codes the `switch` names. */
  const KnownPeriods: set<string> := {"1w", "1mo", "3mo", "6mo", "1y", "5y"}

  function GetInterval(period: string): (interval: string)
    ensures interval in {"1h", "1d", "1wk", "1mo"}
    ensures interval == "1h" <==> period == "1w"
    ensures interval == "1wk" <==> period == "1y"
    ensures interval == "1mo" <==> period == "5y"
    ensures interval == "1d" <==> period in {"1mo", "3mo", "6mo"} || period !in KnownPeriods
  {
    if period == "1w" then "1h"
    else if period == "1mo" then "1d"
    else if period == "3mo" then "1d"
    else if period == "6mo" then "1d"
    else if period == "1y" then "1wk"
    else if period == "5y" then "1mo"
    else "1d"
  }
}
