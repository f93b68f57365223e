# piCO2 / AirCarto — a verified model of the CO2 monitor's logic

piCO2 (AirCarto) is a Raspberry Pi Pico CO2 monitor. The device reads an
MH-Z19C sensor over a UART, shows the reading with a cat mascot on a
128x64 OLED, and posts it to a Flask server that stores measurements in
InfluxDB. Helper scripts generate demo and test data, diagnose the
sensor, and patch the server source.

This project models the sequential logic inside that glue in Dafny, with
one module per source file:

- **Sensor**: the firmware's read exchange. It drains the UART, writes the
  9-byte read command, and decodes the reply.
- **Diagnostics**: the diagnostic script. It covers `hex_dump`, the
  baud-rate search, and the diagnostic decode.
- **Server**: the InfluxDB server. It covers ingest validation and
  defaults, `/api/data/latest` and `/api/stats`.
- **ServerFixed**: the hardened replacements of the two read routes. They
  add record defaults, a fallback query, None-skipping, and zeroed
  fallbacks.
- **TestServer**: the in-memory test server. It keeps a 100-entry history
  list, with a status route and an index page showing the last ten entries.
- **DemoData**: the demo-data generator and its batching into writes of
  1000 points.
- **ServerPatch**: the source patcher that inserts an auto-initialisation
  block after `app = Flask(__name__)`.
- **Mascot**, **MascotImproved**, **SimpleMascot**: the three mascots.
  They cover bit-per-pixel sprite blitting, expression and tip selection,
  the animation state machine, and the text mascot.
- **TestData**: the server test script. It covers payload generation,
  success/total counters, stress-test device ids, and menu input defaults.

Shared modules:

- **Common**: Python string operations. This means `split`/`join` on one
  character, `strip`, `startswith`, `in`, `isdigit`/`int`, and `int()` on
  a real.
- **AirQuality**: the reference 400/600/1000/1500 classifier. Every
  near-duplicate classifier in the repository is proved against it.
- **Json**: JSON values with Python truthiness and `float()`.
- **Influx**: query results, as tables of records.
- **SerialPort**: a UART with a receive buffer and a log of written frames.
- **Display**: a 128x64 framebuffer over `array2<bool>` with a generic
  clipped blit.

Hardware, the network and the clock become explicit inputs:

- reply bytes;
- the tables a query returns, or `None` when the query raises;
- the current time in ms or s;
- the random draws;
- the result of `datetime.fromtimestamp(...).strftime(...)`, as a
  function parameter.

Floats are modelled as exact reals.

## Model

| member | source | states |
|---|---|---|
| AirQuality.ClassifyMonotone | aircarto_complete.py:98-107 | A higher ppm never gets a better band: the band rank is monotone in the reading. |
| AirQuality.ClassifyInBand | aircarto_complete.py:98-107 | The classifier returns a band exactly when the reading lies between that band's bounds (400/600/1000/1500, lower bound inclusive). |
| Sensor.ReadCommandWellFormed | aircarto_complete.py:60 | The command is 9 bytes starting with 0xFF, and its last byte is the MH-Z19 checksum of the bytes before it. |
| Sensor.EncodeReply | aircarto_complete.py:70-76 | A well-formed sensor reply is 9 bytes long. |
| Sensor.DecodeEncode | aircarto_complete.py:70-79 | Decoding a reply FF 86 hi lo ... gives back hi*256+lo for every ppm below 65536 and any five trailing bytes. |
| Sensor.DecodeAcceptsOnlyFrames | aircarto_complete.py:70-79 | Any reply that decodes is such a frame (plus an ignored tail), and the value is below 65536. |
| Sensor.DecodeRejects | aircarto_complete.py:70-85 | A reply shorter than 9 bytes, or whose first two bytes are not FF 86, yields None. |
| Sensor.DecodeIgnoresTail | aircarto_complete.py:72-79 | Two replies of at least 9 bytes with the same first four bytes decode alike: bytes 4..8, the checksum included, never matter. |
| Sensor.ChecksumNotVerified | aircarto_complete.py:72-79 | A reply whose checksum byte is wrong is still accepted. |
| Sensor.ReadCo2 | aircarto_complete.py:52-92 | The pending input is drained, exactly the read command is written, the receive buffer ends empty, and the result is the decode of the reply (None when nothing arrives). |
| Sensor.AirQualityStatusAgrees | aircarto_complete.py:94-107 | None gives ("ERREUR","---"); otherwise the label is the French name of the reference band. |
| Diagnostics.HexTokens | debug_mhz19c.py:18 | One token per byte, each the two-character rendering of that byte. |
| Diagnostics.HexByteParses | debug_mhz19c.py:18 | A byte's two-digit upper-case hex rendering parses back to the byte and contains no space. |
| Diagnostics.HexDumpRoundTrip | debug_mhz19c.py:15-19 | For non-empty data, splitting the dump on spaces and parsing each token as base 16 gives back the bytes. |
| Diagnostics.HexDumpLength | debug_mhz19c.py:18 | The dump of n >= 1 bytes has length 3n-1. |
| Diagnostics.HexDumpTokens | debug_mhz19c.py:18 | The dump splits into exactly the per-byte tokens, each two upper-case hex digits. |
| Diagnostics.FirstResponsiveFound | debug_mhz19c.py:51-75 | When rate k is the first whose reply has at least 9 bytes and starts with 0xFF, the search returns that rate. |
| Diagnostics.FirstResponsiveSound | debug_mhz19c.py:51-75 | A returned rate is one of the tried rates, its reply qualifies, and every earlier rate's reply did not. None means no rate qualified. |
| Diagnostics.SearchAcceptsWrongCommandByte | debug_mhz19c.py:69 | The search accepts a reply whose second byte is not 0x86, which the firmware decoder rejects. |
| Diagnostics.TestDifferentBaudrates | debug_mhz19c.py:47-75 | The loop over 9600, 4800, 19200, 38400 returns the first qualifying rate or None. It writes exactly one read command per rate tried, up to and including the found one, and leaves the port at the found rate. |
| Diagnostics.RatesTried | debug_mhz19c.py:51-75 | The number of rates tried is at most four; it is all of them when none qualifies, and otherwise the found rate is the last one tried. |
| Diagnostics.AnalyzeAgreesWithFirmware | debug_mhz19c.py:119-127 | The diagnostic reports a CO2 value exactly when the firmware would decode one, with the same value. It reports "too short" exactly below 9 bytes. |
| Diagnostics.AlternativeCommandsAreTheReadCommand | debug_mhz19c.py:98-102 | All three "alternative" commands are the standard read command. |
| Diagnostics.MainDecisionAgreesWithFirmware | debug_mhz19c.py:131-157 | `main` declares the sensor working exactly when the firmware decode succeeds, with the same value. It falls back to the wiring/baud checks exactly when nothing was received. |
| SerialPort.Uart.Read | aircarto_complete.py:67 | `uart.read()` returns everything pending and empties the buffer. |
| SerialPort.Uart.Any | aircarto_complete.py:66 | `uart.any()` is true exactly when bytes are pending. |
| SerialPort.Uart.Write | aircarto_complete.py:61 | A write appends the frame to the sent log. |
| SerialPort.Drain | aircarto_complete.py:56-57 | The drain loop leaves no pending input. |
| Display.Framebuffer.Fill | aircarto_mascot.py:460 | `fill` sets every on-screen pixel to the given colour. |
| Display.Framebuffer.Pixel | aircarto_mascot.py:162 | `pixel` sets the one addressed pixel when it is on screen, and changes nothing otherwise. |
| Display.Blit | aircarto_mascot_improved.py:160-166 | Each on-screen pixel ends lit when it was lit before or a set sprite bit covers it; bits map column col to bit topBit-col. |
| Server.MissingFieldOrder | aircarto-server/server.py:75-78 | Fields are checked in the order device_id, co2_ppm, air_quality; the first absent one is named, and none is named exactly when all three are present. |
| Server.IngestAcceptsExactly | aircarto-server/server.py:69-93 | A payload is stored exactly when it is a non-empty object with the three required fields, and co2_ppm (and temperature/humidity when present) convert with `float()`. |
| Server.IngestPoint | aircarto-server/server.py:81-92 | The point carries the payload's tags, with location "unknown" when absent. Temperature and humidity are present exactly when the payload has them. The time is now. |
| Server.IngestRejects | aircarto-server/server.py:71-78 | Missing or empty JSON gives 400 "No JSON data received"; a missing required field gives 400 "Missing field: <name>". |
| Server.ReceiveCo2Data | aircarto-server/server.py:66-104 | The reply is that of the validation outcome. An accepted point is appended to the written log when a write client exists and the write succeeds, and the reply is 200 with or without a client. A raising write stores nothing and gives 500. |
| Server.LatestReplyShape | aircarto-server/server.py:107-140 | No query client gives 503; a failing query gives 500, and so does a record without a device id or time. Otherwise there is one device per record, in order, with its id, time and value; location and air quality are the record's own, or "unknown" exactly when the tag is absent. |
| Server.GetLatestData | aircarto-server/server.py:107-140 | The nested loops over tables and records build the reply the specification function describes; 503 without a query client and 500 when the query fails. |
| Server.MinMaxBounds | aircarto-server/server.py:213-214 | min and max are members of the values and bound every value. |
| Server.SummarizeMeanBetween | aircarto-server/server.py:208-220 | For non-empty values, min_co2 <= avg_co2 <= max_co2. |
| Server.BucketsPartition | aircarto-server/server.py:215-219 | The five bucket counts add up to the number of values. |
| Server.BucketsAreBands | aircarto-server/server.py:215-219 | Each bucket counts exactly the values the reference classifier puts in that band. |
| Server.SummarizeBuckets | aircarto-server/server.py:208-220 | The buckets of the stats partition total_measurements, band by band as the classifier labels them. |
| Server.StatsReplyTotals | aircarto-server/server.py:184-239 | A stats body comes only from a working client and a query that did not fail. No values gives all-zero stats; otherwise total_measurements is the number of records and total_devices the number of distinct device ids (at least 1). |
| Server.GetStats | aircarto-server/server.py:184-239 | The nested loops collecting values and device ids give the stats reply of the specification function, or 503 without a query client and 500 when the query fails. |
| ServerFixed.FirstRecordsSpec | aircarto-server/server_fixed.py:62-76 | The fallback keeps at most one record per table, and a record is kept exactly when it is the first of a non-empty table. |
| ServerFixed.LatestReplySpec | aircarto-server/server_fixed.py:1-91 | No query client gives 503 with no devices; 500 happens exactly when both queries fail. The primary query reports every record in order: each tag is kept exactly when truthy and otherwise becomes aircarto_001, salon or unknown; co2 is the truncated value, 0 for None; the time is the record's or now. The fallback reports the first record of each non-empty table as aircarto_001 in the salon, air quality unknown, time now, and co2 400 for a None or zero value, the truncated value otherwise. |
| ServerFixed.GetLatestData | aircarto-server/server_fixed.py:1-91 | The primary nested loops, or the fallback loop breaking after each table's first record, build the reply of the specification function. |
| ServerFixed.PresentValuesSpec | aircarto-server/server_fixed.py:129-133 | None values are skipped; the kept values are exactly the present ones, never more than the records. |
| ServerFixed.FixedStatsSpec | aircarto-server/server_fixed.py:95-198 | No query client or a failed query give all-zero stats. Otherwise the buckets partition the present values as the classifier does, devices are the truthy ids, the five level counts are the number of values at each level, and min/max are truncated to integers that bracket the mean for non-negative readings. |
| ServerFixed.GetStats | aircarto-server/server_fixed.py:95-198 | The loops skipping None values and falsy ids compute the stats of the specification function. |
| TestServer.PushEvictsOldest | test_server.py:86-90 | The new record becomes last and at most 100 are kept. On overflow only the oldest is dropped; the others keep their order. |
| TestServer.PostRejectsUnchanged | test_server.py:77-98 | Missing/empty JSON (400) or a payload whose timestamp cannot be formatted (500) leave the list unchanged. |
| TestServer.PostStores | test_server.py:83-94 | A payload with a formattable timestamp is stored last with its formatted_time. The reply is 200 exactly when co2_ppm, air_quality and device_id are all present. |
| TestServer.PostKeepsCapacity | test_server.py:86-90 | Every POST keeps the list at 100 entries or fewer. |
| TestServer.StatusAfterPost | test_server.py:100-107 | After a stored payload, api_status reports it as the last measurement and counts it. |
| TestServer.IndexShowsNewest | test_server.py:48-71 | The page lists the last min(n,10) entries oldest first, and shows the total count. It fails exactly when a shown entry lacks a field it prints. |
| TestServer.Store.ReceiveCo2Data | test_server.py:73-98 | The module list is updated in place to the list the POST function describes, keeping at most 100 entries. |
| TestServer.Store.Status | test_server.py:100-107 | total_measurements is the list length; last_measurement is the last entry, or None for an empty list. |
| DemoData.GetAirQualityAgrees | aircarto-server/add_demo_data.py:19-30 | The demo tag is the English name of the reference band. |
| DemoData.RoundHalfEven | aircarto-server/add_demo_data.py:71 | `round()` is within 1/2 of its argument and rounds ties to even. |
| DemoData.ClampHourly | aircarto-server/add_demo_data.py:58-59 | The hourly base is clamped to [350, 2000] and unchanged inside it. |
| DemoData.FinalValue | aircarto-server/add_demo_data.py:67 | Each point's value is at least 350 and not capped above. |
| DemoData.PointAtSpec | aircarto-server/add_demo_data.py:62-76 | Point i is at start + 300*i seconds, has co2 >= 350 after rounding, the tag of its unrounded value, and device aircarto_001 in the salon. |
| DemoData.TimesIncrease | aircarto-server/add_demo_data.py:62-63 | Timestamps strictly increase in list order. |
| DemoData.TagUsesUnroundedValue | aircarto-server/add_demo_data.py:71-72 | 399.75 is stored as 400 yet tagged "excellent", not "good". |
| DemoData.GenerateRealisticCo2Data | aircarto-server/add_demo_data.py:32-78 | The triple loop produces exactly days*24*12 points, point i being the i-th five-minute reading. |
| DemoData.MakeBatches | aircarto-server/add_demo_data.py:99-115 | Batches of 1..1000 points concatenate back to the list; their number is (n-1)//1000+1. |
| ServerPatch.PatchLinesLength | aircarto-server/fix_server_init.py:35-49 | Output line count = input line count + 10 x matching lines. |
| ServerPatch.LineAt | aircarto-server/fix_server_init.py:35-49 | Every input line appears at its shifted position. A matching line is followed directly by the 10-line block. |
| ServerPatch.PatchLinesLayout | aircarto-server/fix_server_init.py:35-49 | The same facts for all lines at once: original lines in order, each match followed by the block. |
| ServerPatch.NoMatchUnchanged | aircarto-server/fix_server_init.py:35-49 | Without a matching line the lines are unchanged. |
| ServerPatch.PatchWithoutMatch | aircarto-server/fix_server_init.py:27-53 | Without the marker and without a match, the written text equals the input (split/join round-trip). |
| ServerPatch.BlockHasMarker | aircarto-server/fix_server_init.py:41 | The inserted block contains the marker comment. |
| ServerPatch.PatchIdempotent | aircarto-server/fix_server_init.py:27-53 | After a patch that matched, a second run writes nothing; after one that did not, the text is unchanged. |
| ServerPatch.FixServerInit | aircarto-server/fix_server_init.py:10-53 | The marker check returns early without writing; otherwise the line loop writes the patched text. |
| Common.JoinSplit | aircarto-server/fix_server_init.py:32 | `'\n'.join(s.split('\n')) == s`. |
| Common.SplitJoin | aircarto-server/fix_server_init.py:53 | Splitting a join of separator-free parts gives the parts back. |
| Common.Trunc | aircarto-server/server_fixed.py:144-145 | `int()` of a real truncates toward zero. |
| Mascot.SpritesWellFormed | aircarto_mascot.py:16-143 | The six cat sprites each have 18 rows, every row below 2^18. |
| Mascot.CatMascot.DrawSprite | aircarto_mascot.py:151-162 | A pixel ends lit when it was lit or is covered by a set bit (size-1-col) at x+col < 128, y+row < 64. Nothing is cleared and there is no lower clip. |
| Mascot.CatMascot.DrawCatSprite | aircarto_mascot.py:164-167 | An unknown name draws nothing; a known one blits that 18x18 sprite. |
| Mascot.MainSpriteFollowsBands | aircarto_mascot.py:477-484 | Main-screen sprite: happy below 600, normal below 1000, worried below 1500, alert otherwise, band by band with the reference classifier. |
| Mascot.TipPeriod | aircarto_mascot.py:505-523 | The tip period is positive (120/120/100/80 by band). |
| Mascot.Tips | aircarto_mascot.py:509-523 | Each band has four tips. |
| Mascot.TipRotation | aircarto_mascot.py:505-523 | The tip is one of the band's four, constant within a period, and repeats every four periods. |
| Mascot.DrawMainDisplayWithMascot | aircarto_mascot.py:458-503 | The screen is cleared and the timer increments by exactly 1. The chosen sprite is drawn at (3,12), "worried" without a reading. The tip uses the new time, or "Erreur". |
| Mascot.VisibleStarsAtMostSeven | aircarto_mascot.py:187-192 | Stars are drawn only while star_x < 120, so at most seven. |
| Mascot.StartupSpec | aircarto_mascot.py:169-195 | The title shows min(frame//10,7) letters of "My Pico", centred and complete from frame 70. The animation continues while frame < 80. |
| Mascot.SleepingSpec | aircarto_mascot.py:205-238 | Progress min(100,2*frame) only grows, remaining max(0,30-frame//4) only falls. At the end (frame >= 120) the bar is full, the countdown 0 and three Z shown. |
| MascotImproved.ExpressionMonotone | aircarto_mascot_improved.py:176-185 | A higher reading never gives a calmer expression (happy <500, worried <1000, panic). |
| MascotImproved.TickSpec | aircarto_mascot_improved.py:218-238 | Animations advance one frame only after 150/100/200 ms and return to idle once the frame exceeds 4/6/8. A blink ends after 300 ms. Well-formed states stay well-formed. |
| MascotImproved.ReactionEnds | aircarto_mascot_improved.py:224-238 | A reaction animation fed slow enough updates returns to idle after limit-frame+1 updates. |
| MascotImproved.OffsetSpec | aircarto_mascot_improved.py:249-254 | Bounce dy in {0,-2}, shake dx in {-1,+1}, panic dx is 1 when frame%4 = 2 and 0 otherwise, no offset in other states. |
| MascotImproved.SpriteName | aircarto_mascot_improved.py:257-266 | The chosen sprite always exists in the sprite table. |
| MascotImproved.Cat.UpdateExpression | aircarto_mascot_improved.py:176-185 | None gives worried, below 500 happy, below 1000 worried, otherwise panic. |
| MascotImproved.Cat.AnimateReaction | aircarto_mascot_improved.py:198-208 | wifi_connect/wifi_error/co2_danger start happy_bounce/shake/panic_wave at frame 0; other events change nothing. |
| MascotImproved.Cat.Update | aircarto_mascot_improved.py:210-240 | The expression follows a present reading and is unchanged for None. The animation steps by the time since the previous update, and last_update becomes now. |
| MascotImproved.Cat.Draw | aircarto_mascot_improved.py:242-276 | The chosen sprite is drawn at home + offset with 0 <= x < 128, 0 <= y < 64 clipping. Add a heart (top 8 bits only) for a happy idle cat on a high roll, or the exclamation mark when panicking. |
| SimpleMascot.MessageMatchesFace | simple_mascot.py:66-75 | Same thresholds as the face: happy with "Cool!", worried with "Bof...", panic with "HELP!", confused with "???". |
| SimpleMascot.AgreesWithImprovedMascot | simple_mascot.py:18-27 | The text mascot's face matches the improved mascot's expression for every reading; only None differs (confused vs worried). |
| SimpleMascot.BlinkChangesEyes | simple_mascot.py:41-64 | Blinking changes only the eye line, and for every face except confused. |
| SimpleMascot.Truncate | simple_mascot.py:97 | `status[:6]` is a prefix of at most six characters, the whole status when it is short. |
| SimpleMascot.Cat.UpdateExpression | simple_mascot.py:18-27 | None gives confused, below 500 happy, below 1000 worried, otherwise panic. |
| SimpleMascot.Cat.Draw | simple_mascot.py:29-64 | A blink needs more than 3000 ms since the last one and a roll above 8. Only a blink moves last_blink. The face's two lines are drawn. |
| SimpleMascot.DrawSimpleDisplay | simple_mascot.py:77-108 | A falsy display changes nothing. Otherwise the screen holds the header (status cut to 6 characters), the cat's face and the message, and the expression follows the reading; the blink timer restarts exactly when the cat blinks. |
| TestData.QualityLabelAgrees | aircarto-server/test_data.py:38-48 | The label is the French name of the reference band. |
| TestData.Co2ReadingRange | aircarto-server/test_data.py:33-36 | max(300, base+variation) lies in [350,1250], the floor never applies, and it is never DANGER. |
| TestData.GeneratedPayloadAccepted | aircarto-server/test_data.py:31-58 | A generated payload passes the server's required-field check and is stored with its own device, location, label and reading. |
| TestData.CountTrue | aircarto-server/test_data.py:122-123 | The success count never exceeds the number of sends. |
| TestData.RunContinuousTest | aircarto-server/test_data.py:102-130 | After r rounds, total = 3r, success = number of successful sends, success <= total. |
| TestData.StressDeviceIdsCycle | aircarto-server/test_data.py:149 | Device ids cycle with period 10: two requests share an id exactly when their indices agree mod 10. |
| TestData.StressTest | aircarto-server/test_data.py:141-161 | Request i uses stress_test_{i%10}; success counts the successful sends and is at most n; the summary percentage is SuccessRate, absent for zero requests. |
| TestData.SuccessRate | aircarto-server/test_data.py:160 | `success/num_requests*100` is a percentage between 0 and 100 with rate·n = 100·success; for zero requests the division raises, which is `None`. |
| TestData.MenuNumberSpec | aircarto-server/test_data.py:190-199 | Non-digit input gives the default (5 minutes, 100 requests); a digit string gives its value. |

## Left out

- UART timing (`time.sleep`), SPI/I2C and the OLED driver are left out. Reply bytes arrive as a parameter and the screen is a framebuffer.
- `ticks_ms` wrap-around is not modelled; times are unbounded integers.
- Text rendering (`oled.text`, fonts), `hline`/`rect`/`fill_rect`, the star and heart drawings of the first mascot, and `show()` are left out. The startup and sleeping screens are modelled as the values they compute (text prefix, star count, progress, countdown), not as pixels.
- The first mascot's waking, reaction, configuration, setup-guide and QR screens are left out. The QR bitmap's claimed URL encoding cannot be checked from the code.
- `draw_tip_text` and the text/line layout of `draw_main_display_with_mascot` are left out. The sprite, tip and timer are modelled.
- `draw_main_display_with_mascot_v2` and `get_status_message` of the improved mascot are left out: text and bar layout with float-scaled bars, and a `random.choice`.
- MascotImproved.Cat.Draw: the final "else happy" sprite branch is unreachable because the expression is always one of three values.
- SimpleMascot.DrawSimpleDisplay: requires the display argument to be the mascot's own display (or none). Drawing on two different screens at once is not modelled.
- Flask routing, HTTP plumbing and `requests` calls are left out. A route is a function from its inputs to a status and body.
- The InfluxDB client, Flux query text and `Point` building are left out. A query result is a sequence of tables of records, and a query that raises is `None` in both servers.
- `/health`, `/api/data/history`, `/` and `/charts` of the InfluxDB server are left out: templates and a pass-through query without logic worth stating.
- `init_influxdb` and the `debug_api.py`, `diagnose_influxdb.py` and `main_spi.py` scripts are left out: client setup and hardware or network diagnostics.
- Server.ReceiveCo2Data and TestServer.Store.ReceiveCo2Data: only JSON objects are modelled as request bodies; a truthy non-object body, which fails on field access and gives 500, is not modelled. The exact text of the 500 reply (`str(e)`) is not modelled.
- Server.IngestAcceptsExactly: `float()` of a string is modelled only for plain digit strings.
- Floating point is modelled as exact reals, and the rounding of avg_co2 to two decimals is not modelled. `math.sin`, `random.gauss` and the weekend factor of the demo generator are an arbitrary hourly/micro-variation function passed as a parameter.
- Randomness (`random.randint`, `random.uniform`, `random.random`) is an argument.
- File reads and writes and the backup copy of `fix_server_init.py` are left out; only the text transform is modelled.
- The test server's `/` page is modelled as a list of cards, not as HTML. A stored payload lacking a printed field makes the page fail, as in the source.
- TestServer.Store.ReceiveCo2Data: `datetime.fromtimestamp(...).strftime(...)` is a function parameter that may fail, not a formatter.
- The console output of every script (`print`, logging) is left out.
- TestData.StressTest: for zero requests, which the menu allows because `"0".isdigit()` holds, the ZeroDivisionError of the summary line is the `None` rate. That the exception then ends `main()` is not modelled, since the menu loop is left out. The throughput line `num_requests/duration` is left out with the clock.
- `str.strip()`, `str.isdigit()` and `str.lower()` (TestServer.Lower) cover ASCII whitespace, ASCII digits and ASCII letters only.
- The sleep between test-script sends and the wall-clock end of `run_continuous_test` are left out. The number of rounds is a parameter.
