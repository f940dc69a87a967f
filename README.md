# Enhanced SpeedStep with the PHC voltage override, in Dafny

This project models the NetBSD driver `est_phc.c` and proves properties of the model. The driver
implements Enhanced SpeedStep for Intel and VIA processors (i386 configuration), with the "PHC"
extension, which lets the administrator lower the voltage of each operating point.

An operating point is a 16-bit identifier. Its high byte is the frequency step, the bus-clock
multiplier. Its low byte is the voltage step, in 16 mV units above 700 mV.

At start-up, `est_init_main` builds the table of operating points:

- It reads MSR_PERF_STATUS and rejects a strange status.
- It looks the processor up in the compiled-in catalog `est_cpus`, by vendor, bus clock, highest
  point and lowest point.
- When the processor is not listed, it interpolates a table between the highest and the lowest
  point.
- It copies the table into `fake_table` and makes `phc_origin_table` point at that same array.
- It renders three lists: the frequencies in MHz, the frequency steps and the voltage steps. The
  last two are capped at `PHC_MAXLEN` characters.
- The voltage-step list becomes the session text `phc_string_vids`.

Two sysctl helpers then act on the processors:

- `est_sysctl_helper` shows the target or current frequency. A new target is rounded up to a table
  row, and that row is broadcast to MSR_PERF_CTL.
- `phc_est_sysctl_helper` shows the session text and accepts a new voltage list. Every number is
  read with `phc_atoi`, and each must be at most the voltage step of its row. Each row then keeps
  its frequency step and takes its new voltage step. The text read becomes the session, and the row
  for the current frequency is broadcast again.

The model's layout follows the driver:

- `Codec` (codec.dfy): the identifier macros.
- `Catalog` (catalog.dfy): the catalog.
- `Scanner` (scanner.dfy): `phc_atoi` and the decimal lists.
- `Resolver` (resolver.dfy): table resolution and interpolation.
- `Selector` (selector.dfy): the row-selection loop.
- `Hardware` (hardware.dfy): the registers, as a `Cpu` class.
- `Override` (override.dfy): the helpers' computations on values, and the state invariant.
- `Render` (render.dfy): the rendering loops.
- `SpeedStep` (driver.dfy): the driver state as a class `Driver`, whose fields the helpers update
  in place.

Loops in the C code are `while` loops over arrays or sequences here, each proved against a
specification function. The properties that relate several calls are lemmas about those functions.

## Model

| member | source | states |
|---|---|---|
| Codec.PhcId16 | est_phc.c:1009 | Unpacking a packed identifier gives back the frequency step and the voltage step it was packed from. |
| Codec.Id16 | est_phc.c:108-109 | ID16 takes the largest frequency step whose frequency is at most half a MHz above the given MHz. It takes the largest voltage step whose voltage is at most the given mV; 0 mV encodes as step 0. |
| Codec.UnpackPack | est_phc.c:992-993 | MSR2FREQINC and MSR2VOLTINC of PHC_ID16(f, v) are f and v, for every pair of bytes. |
| Codec.PackUnpack | est_phc.c:1009 | PHC_ID16 of an identifier's own frequency step and voltage step is the identifier itself. |
| Codec.MHzOnBus100 | est_phc.c:995 | On the 100 MHz bus, MSR2MHZ is exactly 100 MHz per frequency step. |
| Codec.MilliVoltsOfPacked | est_phc.c:996 | MSR2MV of a packed point is 700 mV plus 16 mV per voltage step. |
| Codec.Id16ExactOnBus100 | est_phc.c:108-109 | On the 100 MHz bus, a catalog frequency in whole hundreds of MHz goes through ID16 and MSR2MHZ unchanged. |
| Codec.MHzMonotone | est_phc.c:995 | A higher frequency step never decodes to a lower frequency, on any bus. |
| Catalog.BusClkOfEntry | est_phc.c:904-907 | BUS_CLK of an ENTRY gives back BUS100 or BUS133, as declared. Any other bus reads back as BUS100. |
| Catalog.Id16OnBus133 | est_phc.c:878-879 | In the top point of the C7-M 795 table on the 133 MHz bus, ID16 makes 2000 MHz frequency step 15 and 1148 mV voltage step 28. Both decode back exactly. |
| Scanner.DigitRunValue | est_phc.c:1035-1038 | The digit loop stops at the first non-digit, and the value it accumulates is the decimal value of the run. |
| Scanner.NextNumber | est_phc.c:1029-1040 | A token found lies within the text, after the starting point, and is not empty. |
| Scanner.NextNumberSpec | est_phc.c:1029-1040 | The scan finds nothing exactly when no digit is left. Otherwise it finds the first maximal run of digits, after only non-digits, with its decimal value. |
| Scanner.NextNumberIs | est_phc.c:1029-1040 | A scan finds the one token that the description above allows. |
| Scanner.Atoi | est_phc.c:1023-1041 | phc_atoi returns -1 exactly when no digit is left, and then leaves *remain alone. Otherwise it returns the value of the first digit run, with *remain just past it. |
| Scanner.Numbers | est_phc.c:1078-1100 | Reading k numbers, when it succeeds, gives exactly k values and stops within the text. |
| Scanner.NumbersRunOut | est_phc.c:1078-1087 | Once phc_atoi finds no number, reading more numbers finds none either. |
| Scanner.NumbersExtend | est_phc.c:1078-1100 | Reading more numbers extends the list read so far. |
| Scanner.NumbersOfPrefix | est_phc.c:1102-1104 | Cutting the text right after the last number read (`*remain = '\0'`) leaves the numbers read unchanged. |
| Scanner.Decimal | est_phc.c:1431-1433 | `%d` of a voltage step is a non-empty run of digits whose decimal value is the step. |
| Scanner.DecimalNoLeadingZero | est_phc.c:1431-1433 | `%d` of a number has no leading zero: it is "0" or starts with a non-zero digit. |
| Scanner.TwoDigitJoinLength | est_phc.c:1430-1433 | A list of voltage steps from 10 to 99 renders as three characters per step, less the last space. |
| Scanner.NumbersOfJoined | est_phc.c:1401-1405 | A text that starts with a rendered list, followed by its end or a non-digit, reads back as that list with phc_atoi. |
| Scanner.JoinDecimalRoundTrip | est_phc.c:1426-1434 | Rendering a voltage list and reading it back with phc_atoi gives the list, ending where the text ends. |
| Scanner.RenderedStep | est_phc.c:1401-1405 | Each round of a rendering loop appends `%d` of the next value, and a space unless it is the last. |
| Scanner.RenderRound | est_phc.c:1417-1421 | A round the capped loop takes (its text still below PHC_MAXLEN) appends the next value. It does not change the text the loop ends with. |
| Scanner.CappedShortIsWhole | est_phc.c:1430-1434 | A capped rendering shorter than PHC_MAXLEN is the whole list. |
| Scanner.RenderedPrefix | est_phc.c:1417-1421 | After any number of rounds, the text starts the whole rendering followed by a space. |
| Scanner.CappedIsPrefix | est_phc.c:1417-1421 | A capped rendering starts the whole rendering followed by a space, and it is either the whole list or at least PHC_MAXLEN characters long. |
| Scanner.RenderedEnd | est_phc.c:1417-1421 | Where a rendering loop stops, its text is the capped rendering, and the whole list when the loop ran to the end. |
| Resolver.SaneStatus | est_phc.c:1245-1251 | A status that passes the i386 sanity test never has idlo at a higher frequency step than idhi. |
| Resolver.StatusFields | est_phc.c:1238-1240 | idhi, idlo and cur are bits 32-47, 48-63 and 0-15 of the status. Each reads back exactly from a status built of them. |
| Resolver.FirstMatchFrom | est_phc.c:1280-1287 | The index found holds a matching entry (vendor, BUS_CLK, first row idhi, last row idlo), and no earlier entry matches. None means no entry matches. |
| Resolver.FindEntry | est_phc.c:1279-1287 | The catalog search loop returns the first matching entry, and NULL (None) exactly when none matches. |
| Resolver.InterpolationPlan | est_phc.c:1328-1344 | When the frequency span is narrower or the voltage is flat, the size is the frequency span plus one, with a whole frequency step per row. Otherwise the size is the voltage span plus one, with a whole voltage step per row. The size is always 2 to 256. |
| Resolver.Row | est_phc.c:1353-1355 | Every interpolated row lies between the lowest and highest points, in both frequency step and voltage step. |
| Resolver.InterpolatedTable | est_phc.c:1346-1365 | The fake table has the plan's size and starts at idhi. Each row is within the bounds above. |
| Resolver.RowOfAccumulators | est_phc.c:1351-1364 | After j rows, `((freq + 99) / 100 << 8) + (volt + 99) / 100` is row j. Both halves fit a byte. |
| Resolver.RowsNonIncreasing | est_phc.c:1353-1364 | One more step raises neither the frequency step nor the voltage step. |
| Resolver.InterpolatedNonIncreasing | est_phc.c:1350-1365 | Down the fake table, neither the frequency step nor the voltage step ever rises. |
| Resolver.RowAboveLine | est_phc.c:1335-1339 | In the frequency branch, row j is exactly j frequency steps below idhi. Its voltage step is on or above the straight line between the two points. |
| Resolver.FrequencyStepsWithVoltageAboveLine | est_phc.c:1335-1339 | In the frequency branch, row j is exactly j steps below idhi, down to idlo's step. Voltages are rounded up: never below the straight line from idlo to idhi. |
| Resolver.VoltageStepsRowByRow | est_phc.c:1340-1344 | In the voltage branch, row j is exactly j voltage steps below idhi, down to idlo's voltage step. |
| Resolver.RepeatedFrequencyRow | est_phc.c:1340-1344 | With equal spans (idhi 12/40, idlo 6/34), the second row repeats the top frequency step at voltage step 39. The interpolated frequencies are not strictly decreasing. |
| Resolver.RepeatedTableThirdRow | est_phc.c:1340-1364 | In the same table the third row is 11/38, the first row below the top frequency step. |
| Resolver.LastRowAboveLowPoint | est_phc.c:1335-1339 | For idhi 13/40 and idlo 10/30, the last row is 10/31: it runs one voltage step above idlo, so idlo itself is not in the table. |
| Resolver.LastFrequencyRowAboveLow | est_phc.c:1335-1339 | In the frequency branch, with idlo at a lower voltage step, the last row has idlo's frequency step but a higher voltage step, and idlo is in no row. |
| Resolver.LastVoltageRowFasterThanLow | est_phc.c:1340-1344 | In the voltage branch, with idlo at a lower frequency step, the last row has idlo's voltage step but a higher frequency step, and idlo is in no row. |
| Resolver.LowPointLeftOut | est_phc.c:1335-1365 | For every unlisted pair of points lower in both steps, the interpolated table never contains idlo: its last row stops short of idlo in one of the two steps, whichever branch is taken. |
| Resolver.TableSizeAsWritten | est_phc.c:1335-1344 | Computed from the signed spans, the size is the frequency span plus one or the voltage span plus one. Whenever idlo has the lower frequency step but the higher voltage step, it is zero or negative. |
| Resolver.NegativeVoltageSpanTableSize | est_phc.c:1340-1344 | A status that passes the sanity test, with idhi 12/10 and idlo 6/20, gets a computed table size of -9. |
| Resolver.Resolve | est_phc.c:1232-1369 | est_init_main settles on a table only for a known bus clock and a sane status. That table has 1 to 256 rows and starts at idhi. |
| Resolver.ResolveShape | est_phc.c:1279-1389 | A resolved table has 1 to 256 rows and starts at idhi. Its frequency step never rises, and stays between idlo's and idhi's. |
| Resolver.ResolveNone | est_phc.c:1232-1333 | No table exactly when the bus clock is unknown, the status is strange, or an unlisted processor has no usable span. No usable span means idhi and idlo at the same frequency step, or idlo at the higher voltage step. |
| Resolver.ResolveListed | est_phc.c:1279-1287 | A listed processor gets the table of the first matching entry at or before the given one, ending at idlo. |
| Resolver.Interpolate | est_phc.c:1346-1365 | The interpolation loop fills a new array with exactly the interpolated table. |
| Resolver.StrictPlan | est_phc.c:1340-1344 | The corrected plan: the voltage-branch frequency step is df * 100 / dv hundredths, without the `- 1`, so every row lowers the frequency by at least one whole step. The size and the voltage step are est_init_main's, and the frequency branch is unchanged. |
| Resolver.StrictRow | est_phc.c:1353-1355 | A row of the corrected interpolation, rounded up as est_init_main rounds its rows, lies between idlo and idhi in both steps. |
| Resolver.StrictInterpolatedTable | est_phc.c:1346-1365 | The corrected table, one corrected row per row of the corrected plan. What it means is proved in Resolver.StrictInterpolationDecreasing: it starts at idhi, its frequency steps strictly decrease, every row lies between idlo and idhi, it has as many rows as est_init_main's table, and in the frequency branch it is that table. |
| Resolver.StrictRowsDecreasing | est_phc.c:1340-1355 | Each row of the corrected interpolation has a lower frequency step than the row before it. |
| Resolver.StrictInterpolationDecreasing | est_phc.c:1335-1365 | The corrected table starts at idhi, has strictly decreasing frequency steps, keeps every row between idlo and idhi, and has as many rows as est_init_main's table. In the frequency branch it is est_init_main's table. |
| Resolver.StrictRowAsWritten | est_phc.c:1335-1339 | In the frequency branch, a corrected row is est_init_main's row. |
| Selector.SelectFrom | est_phc.c:1169-1171 | Walking up from row i, the loop stops at the first row whose frequency reaches the request, or at row 0. Every row it passed is slower than the request. |
| Selector.SelectRow | est_phc.c:1169-1171 | The selection loop returns a row. If it is above row 0, that row reaches the request, and every row after it is slower. |
| Selector.FidsGiveMHz | est_phc.c:995 | Frequency steps that never rise give frequencies in MHz that never rise, on any bus. |
| Selector.MHzBelow | est_phc.c:1169-1171 | In such a table no later row is faster than an earlier one. |
| Selector.SelectRoundsUp | est_phc.c:1169-1172 | The request is rounded up to the slowest row at least as fast. The fastest row is chosen when no row is that fast. |
| Selector.SelectExact | est_phc.c:1169-1172 | Requesting a row's exact frequency selects a row of exactly that frequency. |
| Selector.SelectSettles | est_phc.c:1169-1172 | Selecting again the frequency just selected gives the same frequency. |
| Hardware.BroadcastSetsPoint | est_phc.c:1173-1177 | A broadcast with mask 0xffff makes MSR_PERF_CTL request exactly the point written. The 48 bits above it are kept. |
| Hardware.Cpu.Broadcast | est_phc.c:1173-1177 | msr_cpu_broadcast replaces the low 16 bits of MSR_PERF_CTL, leaves MSR_PERF_STATUS alone, and records the value. |
| Override.SameText | est_phc.c:1062-1066 | strncmp(a, b, PHC_MAXLEN) == 0, character by character: the texts agree on every position below PHC_MAXLEN that both have, and when either ends before PHC_MAXLEN both end at the same place. |
| Override.SameTextShort | est_phc.c:1065 | A text shorter than PHC_MAXLEN is the same text as another exactly when the two are equal. |
| Override.Strlcpy | est_phc.c:1056 | strlcpy with a non-zero size leaves a prefix of the source shorter than the size, and the whole source when it fits. |
| Override.InitialCopyOverflows | est_phc.c:1426-1440 | For 11 or more rows with two-digit voltage steps, the capped voltage list is at least PHC_MAXLEN characters long, and strlcpy with size n * 3 + 1 writes more than PHC_MAXLEN bytes into the PHC_MAXLEN-byte session buffer. |
| Override.InitialCopyFits | est_phc.c:1439-1440 | strlcpy with size PHC_MAXLEN never writes more than PHC_MAXLEN bytes. It copies a list shorter than PHC_MAXLEN whole, and copying its result again changes nothing. |
| Override.Validate | est_phc.c:1077-1100 | An accepted list has one number per row, each at most the row's voltage step in phc_origin_table. Reading ends within the text. |
| Override.ValidateRanOut | est_phc.c:1082-1087 | Running out of numbers at any row refuses the whole list. |
| Override.ValidateExceeds | est_phc.c:1089-1094 | A number above its row's voltage step refuses the whole list, whatever follows. |
| Override.Rewrite | est_phc.c:1106-1114 | Each row keeps its frequency step and takes its new voltage step. |
| Override.OverrideLowersVoltages | est_phc.c:1089-1114 | An accepted override keeps every frequency step and never raises a voltage step. |
| Override.AcceptedTextReadsBack | est_phc.c:1102-1120 | The text kept as the session, cut where reading stopped, reads back as the accepted steps. It is itself accepted, with the same steps. |
| Override.OwnVidsAccepted | est_phc.c:1077-1114 | Writing back a table's own rendered voltage list is accepted and leaves the table as it was. |
| Override.RestoreRefused | est_phc.c:1391-1392 | With phc_origin_table aliasing fake_table, once an override lowers a row, writing back the factory voltage list is refused. |
| Override.RestoreAccepted | est_phc.c:1391-1392 | With the bounds kept in a copy of the factory table, an override that lowers a row really changes the table, and writing back the factory voltage list is still accepted and restores every row. |
| Override.TargetWrite | est_phc.c:1153-1177 | A target write broadcasts nothing exactly when the request equals the frequency MSR_PERF_CTL asks for. Otherwise it broadcasts a row such that every later row is slower than the request, and the row itself reaches the request unless it is row 0. |
| Override.TargetWriteSettles | est_phc.c:1165-1177 | After a broadcast, the same request broadcasts nothing or the same row again. Requesting the frequency now in force broadcasts nothing. |
| Override.RepeatedTargetRebroadcasts | est_phc.c:1165-1177 | A request of 1000 MHz against rows of 1600 and 600 MHz broadcasts the 1600 MHz row every time it is repeated. |
| Override.TopRequestRunsRepeatedRow | est_phc.c:1169-1171 | For idhi 12/40 and idlo 6/34 on the 100 MHz bus, a request for the top frequency of 1200 MHz selects row 1, 12/39, and not the top row: the repeated frequency step runs at a lower voltage step than idhi. |
| Override.SelectsRepeatedRow | est_phc.c:1169-1171 | In a table with non-increasing frequency steps, with 12 in row 1 and 11 in row 2, a request of 1200 MHz on the 100 MHz bus selects row 1. |
| Override.StrictTopRequestRunsTop | est_phc.c:1169-1171 | In a table with strictly decreasing frequency steps on the 100 MHz bus, a request for the top row's frequency selects the top row. |
| Override.SessionReadsBack | est_phc.c:1426-1440 | A voltage list rendered below PHC_MAXLEN holds every row, and reads back with phc_atoi as the voltage steps. |
| Override.OverrideKeepsConsistent | est_phc.c:1104-1120 | An override accepted against any bounds within the factory table keeps the invariant. The invariant: each row keeps its factory frequency step at no more than its factory voltage step, and a short session reads back as the steps in force. |
| Override.InitialConsistent | est_phc.c:1389-1440 | The state est_init_main leaves satisfies the invariant. |
| Render.RenderList | est_phc.c:1397-1434 | The rendering loop gives the whole space-joined list when uncapped. When capped, it gives the text the loop reaches once it is PHC_MAXLEN characters long or the list ends. |
| SpeedStep.LoadTable | est_phc.c:1232-1389 | est_init_main's table search gives a fresh array holding the resolved table. There is no table exactly when resolution fails. |
| SpeedStep.CopyRows | est_phc.c:1391-1392 | The copy of the rows that the comment on line 1391 intends: a fresh array with the same rows as fake_table. |
| SpeedStep.RenderTables | est_phc.c:1397-1434 | The three lists are the full frequency list in MHz and the capped frequency-step and voltage-step lists. |
| SpeedStep.ReadOverride | est_phc.c:1077-1100 | The first round succeeds exactly when the list is accepted, and then returns the numbers read and *remain. |
| SpeedStep.RewriteRows | est_phc.c:1106-1114 | The second round leaves fake_table as the rewrite of phc_origin_table's old rows. This holds whether or not the two are one array. |
| SpeedStep.Driver.constructor | est_phc.c:1203-1440 | The driver works exactly when a table is resolved. fake_table is that table. phc_origin_table is the same array, or a fresh copy of it when a copy is asked for. The three lists are rendered from it, and the session is the voltage list. The invariant holds. |
| SpeedStep.Driver.FrequencySysctl | est_phc.c:1140-1181 | EOPNOTSUPP without a table or for another node. Otherwise: the target node shows MSR_PERF_CTL's frequency and the current node MSR_PERF_STATUS's. A new different target broadcasts exactly the TargetWrite row, and nothing else changes. |
| SpeedStep.Driver.ApplyOverride | est_phc.c:1104-1132 | The second round rewrites fake_table from phc_origin_table and the accepted steps. The text up to the last number read becomes the session, and the row for the current frequency is broadcast. phc_origin_table stays the same array, the factory table stays as it was, and the invariant is kept. |
| SpeedStep.Driver.VidsSysctl | est_phc.c:1043-1138 | EOPNOTSUPP without a table. It shows what strlcpy into the PHC_MAXLEN-byte buffer leaves of the session. A read, or a new text that agrees with the session on PHC_MAXLEN characters, returns 0 (Done) and changes nothing. A text refused against phc_origin_table gives EINVAL and changes nothing. An accepted text rewrites every row from phc_origin_table and becomes the session up to the last number read, and the row for the current frequency is broadcast. The factory table stays as it was. The invariant is kept. |
| SpeedStep.EstInit | est_phc.c:909-990 | est_init_main over the compiled-in catalog, as written: the driver works exactly when that catalog resolves a table, and then holds it, with phc_origin_table the same array as fake_table. |
| SpeedStep.EstInitKeepingOriginal | est_phc.c:1391-1392 | The same start-up, with phc_origin_table a separate copy of the factory table, as the comment on line 1391 intends. |

## Left out

- The sysctl plumbing is left out: node creation under machdep.est, sysctl_lookup and its errors, and copying values to and from user space. A helper call is modelled by the value shown and the optional new value written.
- kmem_alloc and malloc, and the ENOMEM path, are left out. Every allocation is a fresh Dafny array or a value.
- The output of aprint, printf and EST_DEBUG is left out, as is the second rdmsr that only feeds the start-up message.
- Bus-clock detection (p4_get_bus_clock, p3_get_bus_clock, via_get_bus_clock) is left out, as is the CPU family test. The bus clock is a parameter, and 0 stands for an unknown clock.
- The amd64 configuration is not part of this model: its sanity test and the absence of the catalog.
- There is one `Cpu` object standing for every processor. A broadcast is one atomic update. Concurrency between processors and between sysctl calls is not modelled.
- The sizes of the rendering buffers are not modelled: n * 5 + 1 characters for the frequency list, n * 3 + 1 for the other two. Each rendered text is the whole text snprintf would write into a buffer large enough for it: the model never truncates a number.
- The final strlcpy of the voltage list into the PHC_MAXLEN-byte session buffer is not modelled in the driver state: the session is the capped rendering itself. For a list shorter than PHC_MAXLEN this is what either copy leaves. For a longer one, the text VidsSysctl shows, Strlcpy(session, PHC_MAXLEN), is what the copy with size PHC_MAXLEN would leave (see Findings). The overflow of the copy as written is stated only in Override.InitialCopyOverflows.
- Resolver.Resolve and the driver keep the interpolation as written, with the `- 1` on line 1342. The corrected interpolation, Resolver.StrictInterpolatedTable, is stated beside it and is not used by the driver (see Findings).
- SpeedStep.Driver.VidsSysctl requires the new text to be shorter than PHC_MAXLEN. That is the sysctl_lookup buffer's limit: it writes at most PHC_MAXLEN - 1 characters and a NUL.
- Scanner.Atoi reads unbounded naturals: a digit run too long for a C int, which overflows in the driver, is not modelled. As a result, the `vid < 0` test in the helper never fires in the model.
- Catalog: each catalog row is written as the frequency and voltage steps that ID16 yields, not as a call to ID16 with the MHz, mV and bus. Catalog.Id16OnBus133 shows the computation for one point. Codec.Id16 states ID16 in general.
- SpeedStep.Driver.constructor takes the catalog as a parameter. SpeedStep.EstInit supplies the compiled-in est_cpus.
- SpeedStep.Driver.constructor takes a flag choosing between the aliasing phc_origin_table of the code as written and the copy the code's comments describe (see Findings). The driver has no such flag.
- Resolver.Resolve: when idlo has a higher voltage step than idhi, the model resolves no table. The driver instead computes a table of non-positive size (see Findings).
- SpeedStep.Driver.FrequencySysctl: machdep.est.frequency.current is created read-only, so sysctl_lookup refuses a write to it before the helper's own code runs. The model has no sysctl_lookup: it treats a new value for the current node as ignored, with status Done.

## Findings

| source | as written | input that shows it | evidently intended | confidence | as-written member | corrected member |
|---|---|---|---|---|---|---|
| est_phc.c:1335-1348 | A status with idlo's voltage step above idhi's passes the sanity test. The voltage span is then negative, so the voltage branch is taken and the table size comes out negative. The size is still passed to malloc and stored in fake_fqlist.n, and later loops run up to it. | MSR_PERF_STATUS with idhi = 0x0c0a (step 12, voltage 10), idlo = 0x0614 (step 6, voltage 20) and cur = idhi, on an unlisted processor: tablesize = 10 - 20 + 1 = -9. | Refuse the interpolation when the low point has the higher voltage step, as it is refused for equal frequency steps, and leave est_fqlist NULL. | not executed | Resolver.NegativeVoltageSpanTableSize | Resolver.ResolveNone |
| est_phc.c:1391-1392 | The comments on lines 1011 and 1391 say phc_origin_table keeps the original settings, but the memcpy copies the pointer fake_table, not the rows. phc_origin_table and fake_table are then one array, and each accepted override also lowers the bounds that the next override is checked against. | A table of three rows with voltage steps 40, 37 and 34. Write "40 30 34", which is accepted, then write back "40 37 34": it is refused with EINVAL, since row 1's bound is now 30. | Copy the rows into a separate array, so every override is checked against the factory voltage steps and the factory list can be written back. | not executed | Override.RestoreRefused | Override.RestoreAccepted |
| est_phc.c:1340-1344 | In the voltage branch the frequency per row is lowered by df * 100 / dv - 1 hundredths of a step (line 1342). With equal spans that is 99 hundredths, less than one step. Rounding up then gives two rows with the top frequency step, so the frequency steps are not strictly decreasing. In the example below, a request for the top frequency selects the second row, one voltage step below idhi. | idhi 12/40 and idlo 6/34 on the 100 MHz bus give the table 12/40, 12/39, 11/38, ... A request of 1200 MHz selects row 1, 12/39. | Frequency steps that strictly decrease, with df * 100 / dv hundredths per row, so that each row is one operating point. | not executed | Override.TopRequestRunsRepeatedRow, with Resolver.RepeatedFrequencyRow | Resolver.StrictInterpolationDecreasing, with Override.StrictTopRequestRunsTop |
| est_phc.c:1439-1440 | The session buffer phc_string_vids has PHC_MAXLEN (30) bytes, but strlcpy copies phc_original_vids into it with size vids_len, n * 3 + 1. The capping loop stops only once the list reaches PHC_MAXLEN characters, so a long list is 30 characters or more. strlcpy then writes up to vids_len bytes, past the end of the buffer. | 11 rows with two-digit voltage steps: the capped list is 30 characters or more and vids_len is 34, so strlcpy writes 31 bytes into the 30-byte buffer. | strlcpy with size PHC_MAXLEN, the size of the buffer. | not executed | Override.InitialCopyOverflows | Override.InitialCopyFits, with Override.Strlcpy as SpeedStep.Driver.VidsSysctl uses it |
