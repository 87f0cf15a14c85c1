# GTA VI countdown bot: arithmetic and layout

This project models the part of `twitter_bot.py` that computes numbers, coordinates and strings, and proves properties of it in Dafny. That part covers:

- the progress calculator (`calculate_progress`);
- the drawing sequence of `create_countdown_image`:
  - the 1080-line pink-to-purple gradient;
  - the font fallback chain;
  - the title logo or its "VI" stamp fallback;
  - the six-outline progress bar and its fill;
  - the five text readouts;
  - the Rockstar logo or its "R*" fallback;
  - the date-stamped file name;
- the tweet caption built in `post_to_twitter`.

The canvas is modelled as the log of drawing calls made on it. `Drawing.Canvas` has one field, `ops`, and every `line`, `rectangle`, `ellipse`, `text` and `paste` call appends one `Op` to it, carrying the coordinates, colours, fonts and anchors the code passes.

The drawing parts of `create_countdown_image` are module-level methods that take the canvas. Each is proved to append exactly the calls a specification function gives:

- the gradient loop (`Gradient.DrawGradient`);
- the nested stamp loops (`TitleStamp.DrawStamp`);
- the border loop and fill (`ProgressBar.DrawBar`);
- the whole run (`Renderer.CreateCountdownImage`).

The two font loops do not draw. `Fonts.TryFamily` and `Fonts.LoadFonts` return a `FontSet` proved equal to the first-success search `Fonts.FirstLoadable` and its specification `Fonts.ResolveFonts`. Properties of what gets drawn and chosen are proved about those functions.

The calculator, the formatting and the geometry are pure functions. For the percentage, the gradient and the fill, the Python floating-point expressions are replaced by exact integer forms that give the same integers on the inputs that occur:

- the percentage is the clamped quotient rounded half to even, and a tie can never happen (`Progress.NoRoundingTie`);
- each gradient channel is an exact ceiling or floor (`Gradient.ScanlineClosedForm`);
- the fill width is `560 * p / 100` truncated.

The scaled logo height also uses the exact quotient, but there floating point can differ (see "## Left out").

The environment becomes parameters:

- the two clock readings, `today` for the progress and `saveDate` for the file name;
- `loads(name)`, saying whether a font file loads;
- an `Asset` for each logo file: found with its size, missing, or present but unusable.

Only a missing file selects a fallback. Any other failure ends the run with an error, because the source catches only `FileNotFoundError`.

Modules, one per file: `Wrappers`, `Calendar`, `Decimal`, `PyNumbers`, `Progress`, `Drawing`, `Gradient`, `ProgressBar`, `TitleStamp`, `Fonts`, `Texts`, `Renderer`.

## Model

| member | source | states |
|---|---|---|
| Calendar.NextDay | twitter_bot.py:22-27 | The day after a valid date is a valid date that comes after it. |
| Calendar.DaysBeforeYearIsSum | twitter_bot.py:25-27 | The closed-form day count before a year equals the sum of the year lengths under the Gregorian leap rule. |
| Calendar.DaysBeforeMonthIsSum | twitter_bot.py:25-27 | The month offset table equals the sum of the month lengths, with February's leap day. |
| Calendar.OrdinalMonotone | twitter_bot.py:25-27 | A date earlier in the calendar has a smaller day number. |
| Calendar.OrdinalOrder | twitter_bot.py:25-27 | Calendar order and equality are exactly day-number order and equality, so `(b - a).days` is negative exactly when `b` comes first. |
| Calendar.NextDayOrdinal | twitter_bot.py:25-27 | Advancing one day adds exactly one to the day number. |
| Decimal.NatToString | twitter_bot.py:129-130 | The decimal form of a natural number is a non-empty string of digits with no leading zero: it starts with `0` only for 0, which is written `"0"`. |
| Decimal.IntToString | twitter_bot.py:129-130 | `str()` of an integer is non-empty, starts with a minus sign exactly for negatives and with a digit otherwise, and is digits after the first character. Its first digit is never a leading zero, and 0 is written `"0"`. |
| Decimal.ParseNatToString | twitter_bot.py:129-130 | Reading back the digits of a natural number gives that number. |
| Decimal.IntToStringRoundTrip | twitter_bot.py:129-130 | Reading back `str()` of any integer, negative ones included, gives that integer. |
| Decimal.IntToStringPrefix | twitter_bot.py:174-180 | When a number's decimal form is followed by text that starts with a non-digit, the number and the text are both determined. |
| Decimal.Pad | twitter_bot.py:152 | Zero-padding yields exactly `width` digits. |
| Decimal.PadRoundTrip | twitter_bot.py:152 | A number that fits in `width` digits is read back from its zero-padded form. |
| PyNumbers.RoundHalfEven | twitter_bot.py:32 | `round()` of an exact quotient is within one half of it, and it is even when the quotient lies exactly halfway. |
| PyNumbers.RoundHalfEvenMonotone | twitter_bot.py:32 | Rounding never reverses the order of two quotients with the same denominator. |
| PyNumbers.DivMonotone | twitter_bot.py:29-32 | Floor division by a positive number preserves order. |
| Progress.ClampedRound | twitter_bot.py:29-32 | The clamped and rounded percentage lies in 0..100, is 0 for a non-positive ratio and 100 for a ratio of at least 100. |
| Progress.TotalDays | twitter_bot.py:17-25 | The span from 2025-11-06 to 2026-11-19 is 378 days. |
| Progress.CalculateProgress | twitter_bot.py:20-34 | The percentage lies in 0..100, and days passed plus days remaining is the whole span. |
| Progress.ClampedRoundMonotone | twitter_bot.py:29-32 | A larger elapsed ratio never yields a smaller percentage. |
| Progress.NoRoundingTie | twitter_bot.py:29-32 | `100 * d / 378` is never exactly halfway between two integers, so the half-to-even rule never applies. |
| Progress.PassedPlusRemaining | twitter_bot.py:25-27 | For every date, days passed plus days remaining equals 378. |
| Progress.ZeroUntilStart | twitter_bot.py:25-32 | On or before the start date the percentage is 0. |
| Progress.FullFromRelease | twitter_bot.py:25-32 | On or after the release date the percentage is 100, and after it the days remaining are negative. |
| Progress.NearestDuringSpan | twitter_bot.py:29-32 | Between the two dates the percentage is strictly the nearest integer to `100 * passed / 378`. |
| Progress.ProgressMonotone | twitter_bot.py:26-32 | Going to a later date lowers the days remaining by the days between the two dates and never lowers the percentage. |
| Progress.ProgressNextDay | twitter_bot.py:26-32 | From one day to the next the days remaining drop by exactly 1 and the percentage does not decrease. |
| Progress.MidSpanExample | twitter_bot.py:20-34 | The concrete values: 2025-11-06 gives (0, 378), 2026-05-19 gives (51, 184), 2026-11-18 leaves 1 day, and 2026-11-19 gives (100, 0). |
| Drawing.Canvas.constructor | twitter_bot.py:38-39 | A new image has had no drawing calls. |
| Drawing.Canvas.Draw | twitter_bot.py:46 | A drawing call is appended to the image's calls and nothing else changes. |
| Gradient.ScanlineClosedForm | twitter_bot.py:42-46 | On the canvas the truncated channel formulas are `230 - ceil(y/12)`, `80 - ceil(y/27)` and `200 + floor(y/27)`. |
| Gradient.ScanlineRange | twitter_bot.py:42-46 | Every channel lies in its range (red 140..230, green 40..80, blue 200..239), and the top line is (230, 80, 200). |
| Gradient.ScanlineMonotone | twitter_bot.py:42-46 | Further down the canvas, red and green never increase and blue never decreases. |
| Gradient.DrawGradient | twitter_bot.py:42-46 | The loop draws one full-width line per scanline, top to bottom, in that scanline's colour. |
| ProgressBar.FillWidth | twitter_bot.py:124 | For a percentage in 0..100 the fill is 0..560 pixels wide, it is 560 at 100, and it is positive exactly when the percentage is at least 1. |
| ProgressBar.FillWidthMonotone | twitter_bot.py:124 | A higher percentage never gives a narrower fill. |
| ProgressBar.BordersNested | twitter_bot.py:116-122 | Each of the six outlines lies inside every later one, and all of them are on the canvas. |
| ProgressBar.FillInsideBorder | twitter_bot.py:116-127 | The fill `[260, 730, 260 + w, 800]` lies ten pixels inside the innermost outline `[250, 720, 830, 810]`. |
| ProgressBar.DrawBar | twitter_bot.py:120-127 | The six white one-pixel outlines, innermost first, then the pink fill only when its width is positive. |
| TitleStamp.StampCalls | twitter_bot.py:109-113 | Every stamp call is a white "VI" in the title font, placed at a stamp offset from (280, 380): within 8 pixels on each axis and never at the centre. Every stamp offset gets a call. |
| TitleStamp.IndexPos | twitter_bot.py:109-110 | Each of the 81 loop steps visits a distinct grid point, and the steps and grid points correspond one to one. |
| TitleStamp.PosIndex | twitter_bot.py:109-110 | Every grid point is visited at exactly one loop step. |
| TitleStamp.IndexOrder | twitter_bot.py:109-110 | The loops visit grid points in lexicographic order, `ox` first. |
| TitleStamp.VisitedMember | twitter_bot.py:109-111 | After `k` loop steps, an offset has been drawn exactly when it passes the test and was visited before step `k`. |
| TitleStamp.VisitedSorted | twitter_bot.py:109-111 | The drawn offsets come in strictly increasing visiting order. |
| TitleStamp.StampOffsetsExactly | twitter_bot.py:109-111 | The loops draw exactly the even offsets in [-8, 8]² with `abs(ox) + abs(oy) > 2`, each once, in lexicographic order. |
| TitleStamp.StampOffsetsSymmetric | twitter_bot.py:109-111 | The set of drawn offsets is closed under negation. |
| TitleStamp.VisitedLength | twitter_bot.py:109-111 | Each loop step adds one offset, except the five centre positions, which add none. |
| TitleStamp.StampOffsetsCount | twitter_bot.py:109-111 | Exactly 76 offsets are drawn: 81 grid points less the centre and its four distance-2 neighbours. |
| TitleStamp.SortedUnique | twitter_bot.py:109-111 | Two strictly sorted sequences with the same elements are equal, so the drawing order is fully determined. |
| TitleStamp.DrawStamp | twitter_bot.py:109-113 | The nested loops issue exactly the stamp calls for all 76 offsets, in visiting order. |
| Fonts.FirstLoadable | twitter_bot.py:52-62 | The result is the first position whose file loads; it is none exactly when no file in the list loads. |
| Fonts.FirstLoadableUnique | twitter_bot.py:52-62 | A loading position with no loading position before it is the one the search finds. |
| Fonts.TryFamily | twitter_bot.py:52-62 | The loop succeeds exactly when some name loads, and then all four fonts come from the first such file at the family's sizes. |
| Fonts.ResolveFonts | twitter_bot.py:51-83 | The default font is used exactly when no Pricedown or Arial file loads. If a Pricedown file loads, all four fonts come from the first one that does, at (70, 50, 50, 24). |
| Fonts.ArialFallback | twitter_bot.py:64-76 | With no Pricedown file, the first Arial file that loads supplies all four fonts, at (70, 50, 42, 24). |
| Fonts.LoadFonts | twitter_bot.py:51-83 | The Pricedown loop, then the Arial loop, then the default, yields exactly the fonts `ResolveFonts` chooses; selection never fails. |
| Fonts.TitleFont | twitter_bot.py:100-107 | Defined as the first-success search over `pricedown.otf`, `arial.ttf`. Its contract derives from that search: `pricedown.otf` at 350 if it loads, otherwise `arial.ttf` at 350 if that loads, otherwise the large font. |
| Fonts.TitleFontSize | twitter_bot.py:100-107 | The title is drawn at 350 points exactly when one of the two title files loads; otherwise, when it is a TrueType font, it is the 70-point large font. |
| Texts.ReadoutOps | twitter_bot.py:129-135 | Defines the five text calls in source order. Its contract states only that there are five. The anchors are stated by `Texts.ReadoutAnchors`, and what the numbers show by `Texts.ReadoutsDetermineSnapshot`. |
| Texts.PercentTextRoundTrip | twitter_bot.py:129 | The percentage is read back from its `"{p}%"` readout. |
| Texts.DaysTextRoundTrip | twitter_bot.py:130 | The signed day count is read back from its `"{d} DAYS REMAINING"` readout. |
| Texts.ReadoutsDetermineSnapshot | twitter_bot.py:129-130 | Equal readouts come only from equal percentage and days remaining. |
| Texts.ReadoutAnchors | twitter_bot.py:129-135 | Every readout is anchored on the canvas except "COMING", whose anchor at y = 10005 lies below it. |
| Texts.FramedNumbersInjective | twitter_bot.py:174-180 | Two numbers set into the same text, each followed by a non-digit, are determined by the result. |
| Texts.CaptionInjective | twitter_bot.py:174-180 | Different percentage or days remaining give different tweet captions. |
| Texts.BasicDate | twitter_bot.py:152 | `%Y%m%d` of a date is eight digits. |
| Texts.Filename | twitter_bot.py:152 | The file name has the fixed length of prefix, eight digits and `.png`. |
| Texts.FilenameRoundTrip | twitter_bot.py:152 | The date is read back out of the file name. |
| Texts.FilenameInjective | twitter_bot.py:152 | Different dates give different file names. |
| Texts.FilenameExample | twitter_bot.py:152 | The file for 19 May 2026 is `gta_vi_countdown_20260519.png`. |
| Renderer.LogoHeight | twitter_bot.py:88-89 | The scaled height is the largest `h` with `h * width <= 600 * height`, i.e. the aspect ratio rounded down. |
| Renderer.CompositionErrors | twitter_bot.py:84-150 | A run fails exactly when a logo exists but cannot be used, reporting the title logo first. A title logo fails exactly when 600 times its height is below its width. |
| Renderer.CompositionLayers | twitter_bot.py:38-150 | The gradient's 1080 calls come first, the corner mark last, and the five readouts just before it. |
| Renderer.CompositionShowsProgress | twitter_bot.py:38-150 | With the same logos, two runs that make the same drawing calls report the same percentage and days remaining. |
| Renderer.FallbackCallCount | twitter_bot.py:38-150 | With neither logo present a run makes 1080 + 76 + 6 + 5 + 2 calls, plus one fill call when the percentage is at least 1. |
| Renderer.LogoPlacement | twitter_bot.py:88-94 | The title logo is pasted centred at x = 240, y = 160, 600 wide, at a positive height that keeps its aspect ratio, rounded down. |
| Renderer.DrawTitle | twitter_bot.py:84-113 | The title block makes the paste call when the logo is present, and the full stamp in the title font otherwise. |
| Renderer.DrawReadouts | twitter_bot.py:129-135 | The five text calls are made in source order. |
| Renderer.DrawRockstar | twitter_bot.py:137-150 | The 70x70 paste at (965, 965) when the logo is present; otherwise the white ring `[965, 965, 1035, 1035]` of width 4 and "R*" at (1000, 1000). |
| Renderer.CreateCountdownImage | twitter_bot.py:36-156 | The run either fails exactly as `Composition` says, with the same file name, or makes exactly its drawing calls and returns its file name and progress. |

## Left out

- Publishing (`post_to_twitter`, twitter_bot.py:158-194) is left out: the tweepy authentication, the media upload and the tweet are network calls. Only the caption text is modelled. The broad `except` that reports any failure is not modelled either.
- Reading the credentials from the environment (twitter_bot.py:9-12) is left out.
- Pillow's rendering is left out: the pixels produced by each call, the LANCZOS resizing, alpha pasting, PNG encoding and `img.save` (twitter_bot.py:153). Only the arguments of each drawing call are recorded.
- A text call with the built-in default font is assumed to behave like any other. Whether a given Pillow version accepts an anchor for a bitmap font is not modelled.
- The `print` and `traceback` logging is left out.
- The clock: `datetime.now()` is read twice (twitter_bot.py:22 and :152), and the two readings are the independent parameters `today` and `saveDate`, already truncated to midnight.
- Floating point: every float expression is replaced by its exact rational value, truncated or rounded as Python does. IEEE rounding is not modelled. For the percentage, the gradient and the fill, the exact and float forms agree on every input that occurs.
- Renderer.LogoHeight: uses the exact quotient. `int(height * (600 / width))` in floating point can be one less when `600 / width` is not exact; for example, width 7 and height 21 give 1799, where the exact value is 1800.
- Renderer.CompositionErrors: a title logo whose scaled height is 0 is taken to end the run, because the resampler refuses a zero-height target with an error that is not `FileNotFoundError`. The exact wording of that error is not modelled.
- Fonts.ResolveFonts: `loads(name)` is one predicate per file, so a file that loads at one size but not at another (an error part-way through the four `truetype` calls) is not modelled.
- Texts.BasicDate: `%Y` is modelled as four zero-padded digits, as in the basic calendar-date format of ISO 8601. The platform `strftime` may not pad years below 1000.
- Logo files are reduced to three outcomes: found with a size, missing, or unusable. What makes a file unusable (a corrupt PNG, a permissions error) is not distinguished.
