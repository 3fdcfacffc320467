# Post statistics content filter

A Dafny model of the logic shared by two near-duplicate WordPress plugins,
`Post_Statistics` (`post-statistics.php`) and `WordCountAndTimePlugin`
(`our-first-unique-plugin.php`). On a single-post page in the main query, each
plugin adds a statistics block to the post content. The block has a headline,
then up to three lines: word count, character count and estimated read time.
Both plugins also validate the "display location" setting when the admin form
is saved.

The host's ambient state is passed in explicitly:

- the option table is a `map<string, string>`;
- `LoadSettings` turns it into a `Settings` record, applying the registered
  defaults: location `'0'`, headline `'Post Statistics'`, and `'1'` for each of
  the three toggles;
- `is_main_query()` and `is_single()` become the booleans `isMainQuery` and
  `isSingle`;
- the host primitives `strip_tags`, `str_word_count`, `esc_html` and
  `esc_html__` are the fields of a `Host` record of total functions, so they
  stay uninterpreted.

Option values are strings, and their PHP truthiness is `s != "" && s != "0"`.
PHP's `round($wordCount / 225)` is computed exactly as the integer
`(wordCount + 112) / 225`. A lemma proves this equals rounding the exact
quotient. Another proves the quotient is never exactly halfway between two
integers, so every rounding policy gives the same read time. The block is
placed before the content only when the location is exactly `'0'`.

For string inputs, the only observable difference between the two plugins
is the separator. `post-statistics.php` joins block and content with one
space; `our-first-unique-plugin.php` joins them with nothing. So the shared
module `Statistics` takes the separator as a parameter, and `PostStatistics`
and `OurFirstUniquePlugin` supply `" "` and `""`. The plugins also differ in
parameter typing: `post-statistics.php` declares `string $content` and
`string $input`, while `our-first-unique-plugin.php` leaves both untyped. That
difference only shows for non-string arguments, which the model does not take
(see "Left out").

Modules:

- `Decimal`: how an integer is written into a string.
- `ReadTime`: the read-time estimate.
- `Options`: the option table, defaults, truthiness and the location validator.
- `Statistics`: the gate, the block builder and the placement.
- `PostStatistics` and `OurFirstUniquePlugin`: the two plugins.

Three facts about the code are worth stating plainly:

- location values are the strings `'0'` (beginning) and `'1'` (end);
- the `<h3>` is always emitted, even for an empty headline;
- no rounding tie can occur (`ReadTime.NoTie`), so the rounding policy of
  `round` never matters for the read time.

## Model

| member | source | states |
|---|---|---|
| Decimal.NatToString | post-statistics.php:176 | An interpolated count is written as at least one decimal digit, with no leading zero except for 0 itself |
| Decimal.ParseNatToString | post-statistics.php:180 | Reading the digits of a rendered count back gives that count |
| Decimal.NatToStringInjective | our-first-unique-plugin.php:48 | Two counts render to the same text exactly when they are equal, so each line's text determines the number it reports |
| ReadTime.Minutes | post-statistics.php:184 | The read time m satisfies \|wordCount - 225·m\| < 112.5, so m is the integer nearest to wordCount / 225 |
| ReadTime.MinutesIsRounding | our-first-unique-plugin.php:52 | The integer formula equals PHP's round (halves away from zero) applied to the exact quotient wordCount / 225 |
| ReadTime.NoTie | post-statistics.php:184 | wordCount / 225 is never k + 0.5, so round-half-up, half-even and half-away-from-zero all agree |
| ReadTime.MinutesIsNearest | post-statistics.php:184 | Every other integer k is strictly farther from wordCount / 225 than the read time is |
| ReadTime.MinutesMonotone | our-first-unique-plugin.php:52 | More words never give a shorter read time |
| ReadTime.MinutesBoundaries | post-statistics.php:184 | 0 minutes up to 112 words, 1 minute from 113 to 337 words (225 included), 2 minutes at 338 words |
| Options.GetOption | post-statistics.php:152-154 | An option read gives the stored value when one exists, and the caller's default otherwise |
| Options.LoadSettings | post-statistics.php:60-138 | Each of the five settings is the stored value when one is stored, and otherwise its registered default: location '0', headline 'Post Statistics', each toggle '1' |
| Options.LoadStoreOf | post-statistics.php:152-154 | Every configuration, stored under the five option names, reads back unchanged: no stored value is overridden by a default |
| Options.StoredEmptyToggleIsOff | post-statistics.php:175 | A stored "" for the word-count option makes the word toggle falsy, whatever else is stored |
| Options.FreshInstallDefaults | our-first-unique-plugin.php:68-117 | With nothing stored, every statistic is on and the block goes at the beginning under 'Post Statistics' |
| Options.SanitizeLocation | post-statistics.php:198-205 | An error is raised exactly when the input is neither '0' nor '1'. Accepted input is returned unchanged; rejected input yields the effective stored location. Over a valid store, the result is always '0' or '1' |
| Options.SaveLocation | post-statistics.php:60-67 | Saving the form stores exactly the value the validator returns under the location option, and leaves every other option unchanged |
| Options.SaveKeepsValidLocation | post-statistics.php:199-202 | Saving any input keeps the location invariant: unset, '0' or '1' |
| Options.RejectedSaveKeepsLocation | our-first-unique-plugin.php:120-127 | The second plugin has the same validator. Saving a rejected input leaves the effective location as it was |
| Options.AcceptedSaveSetsLocation | our-first-unique-plugin.php:126 | Saving '0' or '1' makes that the effective location |
| Options.SaveLocationIdempotent | post-statistics.php:198-205 | Saving the same input twice has the same effect as saving it once |
| Statistics.StatLines | post-statistics.php:175-185 | Each of the word, character and read-time lines is present exactly when its toggle is truthy. Lines are in rank order word < character < read time, and no other line appears. There are no lines exactly when all toggles are falsy |
| Statistics.Block | post-statistics.php:169-187 | The block starts with "<h3>" + escaped headline + "</h3><p>" and ends with "</p>", whichever toggles are set |
| Statistics.BlockText | our-first-unique-plugin.php:37-55 | The block's text is the header, then the word line, character line and read-time line in that order, each only if its toggle is truthy, then "</p>". They report the word count of the stripped content, its length, and round(words/225) |
| Statistics.Place | post-statistics.php:189 | For location exactly '0' the output is the block, then the separator, then the content. For any other value it is the content, then the separator, then the block |
| Statistics.UnplacePlace | our-first-unique-plugin.php:57-60 | Splitting a placed output at the block's length recovers both the block and the content unchanged |
| Statistics.Filter | post-statistics.php:147-160 | The output equals the input exactly when the gate is closed: not main query, not single, or all toggles falsy. When the gate is open, the output is strictly longer |
| Statistics.ContentKept | our-first-unique-plugin.php:57-60 | The original content is always a suffix (location '0') or a prefix (otherwise) of the output |
| Statistics.FilterNotIdempotent | post-statistics.php:147-160 | Once the gate is open, filtering the filtered text again keeps it whole and adds a second block. The second block is computed from the augmented text, is placed the same way (the earlier output is a suffix for location '0', a prefix otherwise), and has at least the header plus "</p>" in length |
| PostStatistics.AddStatisticsToContent | post-statistics.php:147-160 | The content is returned unchanged exactly when the main-query, single-post and any-toggle gate is closed. Otherwise the block is joined to the content |
| PostStatistics.CreatePostHtml | post-statistics.php:168-190 | Location '0' gives block + " " + content; any other location gives content + " " + block |
| OurFirstUniquePlugin.IfWrap | our-first-unique-plugin.php:21-26 | The content is returned unchanged exactly when the main-query, single-post and any-toggle gate is closed. Otherwise the block is joined to the content |
| OurFirstUniquePlugin.CreateHtml | our-first-unique-plugin.php:35-61 | Location '0' gives block + content with no separator; any other location gives content + block |
| OurFirstUniquePlugin.DiffersOnlyBySeparator | our-first-unique-plugin.php:57-60 | The second plugin's output is the first plugin's output with the single joining space removed, and is identical when the gate is closed |

## Left out

- Hook and filter registration (the constructors), the admin page, and the settings section and field registration. These are host plumbing.
- The view templates `page_html`/`ourHTML`, `checkbox_html`/`checkboxHTML`, `headline_html`/`headlineHTML` and `location_html`/`locationHTML`. They are view output with no logic.
- Translation loading (`languages`). It is file-system I/O through the host.
- The internals of `strip_tags`, `str_word_count`, `esc_html`, `esc_html__` and `sanitize_text_field`. These are host library functions. The first four are the uninterpreted fields of `Host`. `sanitize_text_field` only affects what is stored, and the model takes the stored strings as given.
- The `add_settings_error` admin notice. It is modelled as the `rejected` flag of `Sanitized`, not as a global notice queue.
- `is_main_query()` and `is_single()`. They are host state and become the parameters `isMainQuery` and `isSingle`.
- Statistics.CharsOf: `strlen` counts bytes, while the model counts the characters of the stripped string. The two agree only when each character is one byte, because the model has no text encoding.
- ReadTime.Minutes: PHP divides in floating point and `round` returns a float. The model uses the exact rational quotient and an integer result. It does not model float rounding error, or the exponent notation PHP would print for counts beyond about 10^15.
- The source computes `$wordCount` only when the word or read-time toggle is on. The model's count is a pure function of the content, so computing it every time makes no observable difference.
- Non-string location inputs. The model's inputs are always strings. Without strict types, `post-statistics.php` coerces an int or bool argument: `1` or `true` becomes `"1"` and is accepted. A null or an array there is a PHP type error. `our-first-unique-plugin.php` compares with `!==`, so it rejects every non-string input, `1` and `true` included.
- Non-string post content. `post-statistics.php` types it `string`; `our-first-unique-plugin.php` accepts anything. The model's content is always a string.
