# Window-driven log ingestion, modelled in Dafny

Three snapshots of one C daemon live in this repository:
`main2014.01.14.16.c`, `main2014.01.14.c` and `main2014.03.18.c`. Each one
polls the clock. On every five-minute boundary it builds the name of that
minute's request log and of the matching F5 access-log file. It runs `ip.sh`
to list the window's top talkers, and searches the F5 log for each address
with `SearchIpInF5.sh`. It then writes records about the addresses to a Redis
store.

- **January snapshots.** These remember the last window they processed and
  skip it if it comes round again. They `zadd` each address to the window's
  sorted set `ipset<name>`. They ask MySQL for the statement logged against
  the url of the address's first F5 line, and `lpush` a record to the list
  `iplist<name>`. In main2014.01.14.16.c the record is "address line
  statement". main2014.01.14.c clears the buffer that still holds the
  address just before it formats the record, so its record starts with an
  empty field: " line statement".
- **March snapshot.** This one has no such memory. For each address it reads
  up to `atoi(url)` F5 lines, and decorates each line with the members of the
  Redis set named by the line's url, each followed by `;`. It sends `PING`,
  and pushes the record with `rpush` only when the reply is "pong". On any
  other reply it reconnects, and the record is lost.

The project is organised in modules:

- `CText` (ctext.dfy) holds the C library's string behaviour on values:
  - NUL-terminated strings;
  - `strtok` on `' '`;
  - `strcasestr`;
  - `atoi`;
  - `%d` and `%02d`;
  - `fgets` on the text a command prints.
- `WindowClock` (window.dfy) holds the two name builders. Each one is a pure
  function of the calendar record `localtime` gives for a `time()` reading.
  Each name has a parser, and both names are proved to round-trip.
- `Normalise` (normalise.dfy) holds the three in-place truncators
  (`del_str_line`, `GetUrlBeforeQuestionMark`, `GetSqlBeforeWhere`) as
  methods on a `char` array. They are proved against the value functions of
  `CText`.
- `Effects` (effects.dfy) holds the event log: sleeps, commands started with
  `popen`, MySQL queries, and Redis commands. Store writes are append-only, so
  a run is described by this list.
- `Ingest0114` (ingest0114.dfy) models both January loops. They differ in
  two ways. main2014.01.14.c sleeps five more seconds after a processed
  window. It also formats its records without the address (see
  "## Findings").
- `Ingest0318` (ingest0318.dfy) models the March loop, `ConnectToRedis` and
  the reconnect loops.

Each loop appears twice:

- a value-level specification (`AfterCycle`, `AfterRun`, …), which carries
  the properties;
- a class whose fields are the loop's variables (`Ingest0114.Poller`,
  `Ingest0318.Daemon`), whose methods are proved equal to that specification.

The outside world is an input:

- the `localtime` function;
- per pass, the readings of `time()`;
- what every command prints, or that `popen` failed;
- MySQL's answer to every query;
- for March, the script of the store's replies: PING replies in order, the
  `smembers` reply per key, and the outcome of each connection attempt.

The model records undefined behaviour and then says nothing more. It counts
as undefined:

- a NULL token from `strtok` that is then formatted or searched;
- a NULL reply from hiredis that is then dereferenced.

When the March PING does not answer "pong", the code at
main2014.03.18.c:674-712 reconnects and drops the record without retrying
the push. `Ingest0318.PublishOnlyOnPong` proves that behaviour.

## Model

| member | source | states |
|---|---|---|
| CText.CStr | main2014.01.14.16.c:729-739 | the C string of a buffer is its prefix up to the first NUL and holds no NUL |
| CText.CStrUnique | main2014.01.14.16.c:729-739 | any NUL-free prefix ended by a NUL, or by the buffer's end, is the C string |
| CText.CutAt | main2014.01.14.16.c:729-751 | the cut is a prefix holding no stop character, ended by a stop character when shorter than the text |
| CText.CutAtUnique | main2014.01.14.c:729-751 | the cut is the only prefix with those properties |
| CText.CutAtIdempotent | main2014.03.18.c:109-132 | cutting twice is cutting once, and text without a stop character is not cut |
| CText.StrCaseStr | main2014.01.14.16.c:752-758 | the search finds the first position where the pattern matches ignoring ASCII case, or reports that none does |
| CText.SqlBeforeWhere | main2014.01.14.16.c:752-758 | the result is a prefix of the statement ending at its first case-insensitive "where": no "where" starts inside it and one starts right after it when it is shorter, and is the whole statement when it has no "where" |
| CText.MatchesInPrefix | main2014.01.14.c:752-758 | a match inside a prefix is a match in the whole text |
| CText.Tokens | main2014.01.14.c:1035-1036 | the strtok tokens of a line are non-empty and hold no space |
| CText.TokensSkipSpace | main2014.01.14.16.c:1035-1036 | leading spaces produce no token |
| CText.TokensCons | main2014.01.14.16.c:1078-1081 | a word followed by a space is the first token and the rest are tokenised on |
| CText.TokensWord | main2014.01.14.c:1077-1080 | a word without spaces is its only token |
| CText.TokensAppend | main2014.03.18.c:671 | the tokens of two texts joined by a space are the tokens of each, in order |
| CText.TokensJoinWords | main2014.03.18.c:592-593 | words joined by single spaces tokenise back to the same words |
| CText.DecNat | main2014.01.14.16.c:680 | `%d` of a natural number is a non-empty run of digits |
| CText.ValueOfDecNat | main2014.01.14.16.c:680 | reading the digits of `%d` back gives the number |
| CText.Pad2Digits | main2014.01.14.c:680 | `%02d` of 0..99 is two digits that read back as the number |
| CText.DigitRun | main2014.03.18.c:583 | atoi reads the longest run of digits at the start |
| CText.AtoiDec | main2014.01.14.c:1026 | atoi of a printed integer is that integer |
| CText.TakeLine | main2014.01.14.c:1028-1029 | fgets takes at most size-1 characters, stopping after the first newline |
| CText.Fgets | main2014.01.14.16.c:1030 | fgets fails exactly on an exhausted stream; otherwise it splits the stream into the chunk TakeLine reads (1..size-1 characters, stopping after the first newline) and the rest |
| CText.ReadLine | main2014.01.14.c:1026-1032 | fgets followed by del_str_line reads at most size-1 characters, consumes input, and leaves no NUL, CR or LF |
| CText.ReadLineWhole | main2014.03.18.c:587-590 | a line that fits the buffer with its newline is read whole and its newline consumed |
| CText.ReadLineSplit | main2014.03.18.c:620-622 | a longer line is read in pieces of size-1 characters |
| WindowClock.GetRequestLogNewName | main2014.01.14.16.c:664-687 | a name exists exactly when the minute is a multiple of five, and it is YYYYMMDDHHmm.log of the current time |
| WindowClock.GetF5LogLocationNewName | main2014.01.14.16.c:689-727 | both names exist exactly when the current minute is a multiple of five; the directory uses the time `skew` seconds earlier and the file uses the current time |
| WindowClock.ReadPairs | main2014.01.14.c:680 | an even run of digits reads as one field per two digits |
| WindowClock.ReadPairsPad2All | main2014.01.14.c:680 | fields printed with `%02d` read back as the same fields |
| WindowClock.ReadStamp | main2014.03.18.c:61 | a parsed stamp has a non-negative year and the requested number of fields |
| WindowClock.ReadStampRoundTrip | main2014.03.18.c:61 | a printed year and its fields read back as the same year and fields |
| WindowClock.ParseRequestLogName | main2014.03.18.c:61 | a parsed request-log name has four fields after the year |
| WindowClock.RequestLogNameRoundTrip | main2014.01.14.16.c:680 | the request-log name parses back to the minute it was built from |
| WindowClock.RequestLogNameIdentifiesMinute | main2014.01.14.c:678-686 | two request-log names are equal exactly when they name the same minute |
| WindowClock.ParseF5File | main2014.03.18.c:100 | a parsed F5 file name has four fields after the year |
| WindowClock.ParseF5Stamps | main2014.03.18.c:100 | the middle of an F5 file name yields two day fields and two time fields |
| WindowClock.ParseF5FileOuter | main2014.01.14.16.c:720 | the F5 file name is read between its fixed prefix and suffix |
| WindowClock.ParseF5StampsParts | main2014.01.14.16.c:720 | the middle of the F5 file name is a day stamp, '_' and four digits |
| WindowClock.ParseF5FileParts | main2014.01.14.16.c:720 | the F5 file name parses field by field |
| WindowClock.F5FileRoundTrip | main2014.01.14.c:720 | the F5 file name parses back to the minute it was built from |
| WindowClock.ParseF5Dir | main2014.03.18.c:98 | a parsed F5 directory has three fields after the year |
| WindowClock.ParseF5DirParts | main2014.01.14.16.c:719 | the F5 directory parses by its last path component |
| WindowClock.F5DirRoundTrip | main2014.01.14.16.c:719 | the F5 directory parses back to the hour it was built from |
| WindowClock.F5DirIdentifiesHour | main2014.03.18.c:96-101 | two F5 directories are equal exactly when they name the same hour |
| WindowClock.Dec2014 | main2014.01.14.16.c:680 | the year 2014 prints as "2014" |
| WindowClock.RequestLogNameExample | main2014.01.14.16.c:665-686 | 09:20 on 6 January 2014 gives "201401060920.log", and 09:21 gives no name |
| WindowClock.F5DirExample | main2014.01.14.c:719 | 16:59:55 on 9 January 2014 gives the directory "2014_5m/20140109/2014010916" |
| WindowClock.F5FileExample | main2014.03.18.c:100 | 17:00:05 on 9 January 2014 gives the file "caccess_f5_20140109_1700.log" |
| WindowClock.F5SkewExample | main2014.01.14.16.c:698-699 | five seconds after 17:00, the ten-second skew selects the previous hour's directory and the file of 17:00 |
| Normalise.CutBuffer | main2014.01.14.16.c:735-737 | writing the NUL keeps the buffer's length and changes no other position |
| Normalise.CStrOfCutBuffer | main2014.01.14.c:735-737 | a NUL written inside the C string ends it there |
| Normalise.CutAtFirst | main2014.01.14.16.c:729-751 | the pointer walk writes a NUL at the first stop character and nowhere else, and leaves the C string cut there |
| Normalise.DelStrLine | main2014.01.14.16.c:729-739 | del_str_line returns 0 and leaves the string ending before its first CR or LF |
| Normalise.GetUrlBeforeQuestionMark | main2014.01.14.c:740-751 | the string ends before its first '?' |
| Normalise.GetSqlBeforeWhere | main2014.03.18.c:133-139 | the string ends where the first case-insensitive "where" starts, and is untouched when there is none |
| Normalise.CutAtNormalises | main2014.01.14.16.c:729-751 | the result is a prefix, holds no stop character, is the original when that has none, and a second pass changes nothing |
| Normalise.CutBufferUntouched | main2014.01.14.c:729-751 | a buffer whose string has no stop character is not written |
| Normalise.SqlBeforeWhereIdempotent | main2014.01.14.16.c:752-758 | cutting at "where" twice is cutting once |
| Normalise.SqlBeforeWhereInsideWord | main2014.01.14.16.c:752-758 | "Nowhere" is cut to "No": the search does not respect word boundaries |
| Normalise.SqlBeforeWhereUpperCase | main2014.03.18.c:133-139 | "t WHERE x" is cut to "t ": the search ignores case |
| Normalise.UrlBeforeQuestionMarkExample | main2014.01.14.16.c:740-751 | "/login?URL=/index" becomes "/login" |
| Effects.KeyedByAppend | main2014.01.14.16.c:1041 | logs whose writes all go to one window's keys still do when joined |
| Effects.ZaddsAppend | main2014.01.14.c:1040 | zadds of two joined logs add up |
| Effects.PushesAppend | main2014.01.14.c:1116 | pushes of two joined logs add up |
| Effects.NoWritesCountsNone | main2014.03.18.c:651-653 | a log without writes counts no zadd and no push |
| Ingest0114.RecordFor | main2014.01.14.16.c:1097-1130 | nothing is pushed after a failed query or without a result set; zero rows push the snapshot's record of the line alone; otherwise the record also holds the first row's statement, cut at "where" |
| Ingest0114.RecordFirstField | main2014.01.14.c:1074-1124 | the record main2014.01.14.c pushes starts with an empty field; the one main2014.01.14.16.c pushes starts with the address |
| Ingest0114.DetailRecordFirstField | main2014.01.14.c:1066-1126 | every record the detail step pushes starts with an empty field in main2014.01.14.c and with the address in main2014.01.14.16.c |
| Ingest0114.DetailPushAsWrittenExample | main2014.01.14.c:1074-1116 | in main2014.01.14.c, address 222.73.133.32, F5 line "a b c /x" and zero rows push " a b c /x" after querying url "/x" |
| Ingest0114.DetailPushExample | main2014.01.14.16.c:1067-1118 | in main2014.01.14.16.c the same input pushes "222.73.133.32 a b c /x" |
| Ingest0114.ExampleRecords | main2014.01.14.c:1110 | the two formats of the example record |
| Ingest0114.DetailExampleLine | main2014.01.14.c:1066-1096 | the example line queries url "/x" and pushes what RecordFor makes of the answer |
| Ingest0114.ExampleTokens | main2014.01.14.c:1077-1080 | strtok splits "a b c /x" into four tokens |
| Ingest0114.ExampleLineWhole | main2014.01.14.c:1066-1068 | the example line is one whole line without NUL, CR or LF |
| Ingest0114.AppendsTrans | main2014.01.14.16.c:1027 | appends by successive steps add their zadd bounds |
| Ingest0114.AppendsNoWrites | main2014.01.14.16.c:1012 | sleeps and commands add no write |
| Ingest0114.AppendsTalker | main2014.01.14.16.c:1041-1051 | a talker's zadd and detail keep the window's bound of one zadd |
| Ingest0114.AfterDetail | main2014.01.14.16.c:1068-1130 | the detail step keeps the mark and only appends writes to the window's list, at most one, no zadd |
| Ingest0114.AfterTalker | main2014.01.14.16.c:1030-1056 | a talker step keeps the mark and appends writes to the window's keys only: one zadd at most, and no more pushes than zadds |
| Ingest0114.AfterTopTalkers | main2014.01.14.16.c:1027-1149 | n talker steps append at most n zadds, all to the window's keys |
| Ingest0114.AfterWindow | main2014.01.14.c:1011-1158 | processing a new window appends at most atoi(ip) zadds, all to its keys, and leaves the mark or sets it to the window's name |
| Ingest0114.AfterCycle | main2014.01.14.c:983-1164 | a pass leaves the mark or sets it to the current window's name, and appends at most atoi(ip) zadds, all to that window's keys |
| Ingest0114.MarkSetOnProcessedWindow | main2014.01.14.c:1154 | the mark changes exactly when both readings are on a boundary, the window's name differs from the mark, ip.sh starts and no undefined behaviour occurs; it then becomes the window's name |
| Ingest0114.NewWindowStartsIpScript | main2014.01.14.16.c:1011-1019 | a new window on a boundary sleeps four seconds and starts ip.sh on its request log |
| Ingest0114.ZaddsAcrossPasses | main2014.01.14.c:1026 | per-pass zadd bounds add up across passes |
| Ingest0114.AfterRun | main2014.01.14.16.c:978-1157 | the log only grows, with at most atoi(ip) zadds per pass |
| Ingest0114.Poller.constructor | main2014.01.14.16.c:978 | the loop starts with an empty mark, an empty log, and no undefined behaviour |
| Ingest0114.Poller.Detail | main2014.01.14.c:1067-1126 | the detail step on the object's fields is AfterDetail |
| Ingest0114.Poller.Talker | main2014.01.14.c:1028-1053 | the talker step on the object's fields is AfterTalker |
| Ingest0114.Poller.TopTalkers | main2014.01.14.c:1026 | the counted loop is AfterTopTalkers |
| Ingest0114.Poller.Cycle | main2014.01.14.16.c:978-1157 | one pass on the object's fields is AfterCycle, including `strcpy` of the new name once the loop is done |
| Ingest0114.Poller.Run | main2014.01.14.c:983-1164 | the passes of a tick script are AfterRun |
| Ingest0114.OffBoundarySleeps | main2014.01.14.c:995-1008 | off a boundary, on either reading, a pass only sleeps five seconds |
| Ingest0114.SameWindowSkipped | main2014.01.14.16.c:1009-1010 | a window equal to the mark changes nothing |
| Ingest0114.PopenFailureKeepsMark | main2014.01.14.16.c:1018-1025 | when ip.sh cannot be started the mark stays, so the window is retried |
| Ingest0114.RunInProcessedWindow | main2014.01.14.c:1010-1162 | passes inside the window already processed leave the state unchanged |
| Ingest0114.TalkerAddsToSet | main2014.01.14.16.c:1030-1051 | a "count ip" line zadds the address with its count to the window's set, then searches the F5 log for the address |
| Ingest0114.DetailQueriesUrl | main2014.01.14.c:1067-1096 | the query names the detail line's fourth token cut at '?', and what is pushed is RecordFor of MySQL's answer |
| Ingest0114.PayloadFields | main2014.01.14.16.c:1112-1128 | the record starts with the address, followed by the tokens of the line and then those of the statement |
| Ingest0114.PayloadAsWrittenDropsAddress | main2014.01.14.c:1074-1110 | the record as main2014.01.14.c formats it starts with an empty field and does not depend on the address |
| Ingest0318.ConnectResult | main2014.03.18.c:157-186 | 0 exactly when the context exists without error and PING answers status "pong", -1 on the other non-NULL replies, undefined on a NULL PING reply |
| Ingest0318.JoinMembers | main2014.03.18.c:654-667 | the pointer walk over the members leaves the decoration: each member and a ';' in reply order, empty unless the reply is an array |
| Ingest0318.JoinedCons | main2014.03.18.c:662-663 | the decoration of a first member and the rest is that member, ';' and the rest's |
| Ingest0318.SplitJoined | main2014.03.18.c:656-667 | members without ';' or NUL split back out of the decoration |
| Ingest0318.PayloadFields | main2014.03.18.c:671 | the record's first field is the count, followed by the tokens of the line and of the decoration; with no decoration it ends in a space |
| Ingest0318.ConnectStep | main2014.03.18.c:157-173 | a connection attempt replaces the context, sends PING only when a connection came up, and returns ConnectResult |
| Ingest0318.AfterReconnect | main2014.03.18.c:692-712 | the reconnect loop writes nothing to the store and sends no main-loop PING |
| Ingest0318.ReconnectStopsAtFirstSuccess | main2014.03.18.c:409-429 | the reconnect loop keeps within the script of attempts; every attempt before its last failed; it leaves the program running only after a successful attempt, and stalls only when every remaining attempt failed |
| Ingest0318.ReconnectEvents | main2014.03.18.c:711 | an attempt and the five-second sleep write nothing |
| Ingest0318.AfterPublish | main2014.03.18.c:674-712 | publishing appends at most one push, to the given key, and no zadd |
| Ingest0318.AppendsTrans | main2014.03.18.c:617 | appends by successive steps add their push bounds |
| Ingest0318.AppendsNoWrites | main2014.03.18.c:568 | sleeps and commands add no write |
| Ingest0318.AppendsDetail | main2014.03.18.c:651-683 | the three lookup commands and a publish make at most one push to the window's list |
| Ingest0318.AfterDetail | main2014.03.18.c:617-712 | a detail step appends at most one push, to the window's list, and no zadd |
| Ingest0318.AfterDetails | main2014.03.18.c:617 | atoi(url) detail steps append at most that many pushes |
| Ingest0318.AfterTalker | main2014.03.18.c:583-611 | a talker step appends at most atoi(url) pushes, all to the window's list |
| Ingest0318.AfterTopTalkers | main2014.03.18.c:583-720 | n talker steps append at most n times atoi(url) pushes |
| Ingest0318.AfterWindow | main2014.03.18.c:567-722 | processing a window sleeps four seconds, starts ip.sh, pushes at most atoi(ip) times atoi(url) records, and ends with the 250-second sleep while running |
| Ingest0318.AfterCycle | main2014.03.18.c:533-723 | a pass appends at most atoi(ip) times atoi(url) pushes, all to the current window's list |
| Ingest0318.PushesAcrossPasses | main2014.03.18.c:583 | per-pass push bounds add up across passes |
| Ingest0318.AfterRun | main2014.03.18.c:533-723 | the log only grows, with at most atoi(ip) times atoi(url) pushes per pass |
| Ingest0318.Daemon.constructor | main2014.03.18.c:378-389 | the program starts with an empty log, no context and nothing consumed |
| Ingest0318.Daemon.ConnectToRedis | main2014.03.18.c:157-186 | one call on the object's fields is ConnectStep, replacing the context |
| Ingest0318.Daemon.ConnectUntilUp | main2014.03.18.c:409-429 | the `for(;;)` around ConnectToRedis is AfterReconnect |
| Ingest0318.Daemon.Publish | main2014.03.18.c:674-712 | PING, rpush or reconnect on the object's fields is AfterPublish |
| Ingest0318.Daemon.Detail | main2014.03.18.c:620-712 | the detail step on the object's fields is AfterDetail |
| Ingest0318.Daemon.Details | main2014.03.18.c:617 | the url-count loop is AfterDetails |
| Ingest0318.Daemon.Talker | main2014.03.18.c:587-611 | the talker step on the object's fields is AfterTalker |
| Ingest0318.Daemon.TopTalkers | main2014.03.18.c:583 | the top-talker loop is AfterTopTalkers |
| Ingest0318.Daemon.ProcessWindow | main2014.03.18.c:567-722 | processing a window on the object's fields is AfterWindow |
| Ingest0318.Daemon.Cycle | main2014.03.18.c:533-566 | one pass on the object's fields is AfterCycle |
| Ingest0318.Daemon.Run | main2014.03.18.c:533-723 | the passes of a tick script are AfterRun |
| Ingest0318.StartupAddress | main2014.03.18.c:398-403 | start-up first tries the configured host and port, or 127.0.0.1:6379 when none is configured |
| Ingest0318.PublishOnlyOnPong | main2014.03.18.c:674-712 | the record is pushed, right after the PING, exactly when the reply is a pong; otherwise it is never pushed |
| Ingest0318.EveryBoundaryProcessed | main2014.03.18.c:567-722 | every boundary pass sleeps four seconds and starts ip.sh whatever was processed before, and ends with the 250-second sleep while running |
| Ingest0318.TalkerSearchesAddress | main2014.03.18.c:587-604 | a "count ip" line searches the F5 log for the address |
| Ingest0318.ShortDetailLineStops | main2014.03.18.c:628-652 | a detail line with fewer than four tokens selects the url database and then stops, since `smembers` gets a NULL url |
| Ingest0318.DetailLooksUpFourthToken | main2014.03.18.c:617-671 | a whole detail line looks up its fourth token, not cut at '?', with smembers between a select of the url database and a select of the record database, then publishes the count, the line and the decoration to the window's list |
| Ingest0318.DecorationExample | main2014.03.18.c:656-667 | members "users" and "logs" give "users;logs;", and a status reply gives nothing |

## Left out

- The hiredis test harness, the async callbacks and the connect/select/disconnect helpers of the January files: `main` never calls them.
- The bodies of MySQL, hiredis, `popen`, `pclose`, `time` and `localtime`: they are foreign calls, and the model takes their results as inputs. Each command's output is one deterministic text per pass.
- The configuration file reader in conf.h, argv parsing, `daemon()`, log4c and printf/DEBUG output: they are I/O plumbing. The configuration strings are inputs.
- Fixed buffer sizes beyond the `fgets` limits: the `sprintf` overflows of `cmdip`, `SelectBuf`, `InsertToList` and `temp[1024]` are not modelled. Strings are unbounded.
- `memset(buff[0], ...)` at main2014.01.14.c:1146-1149 is not modelled: it depends on pointer width and has no effect the model observes.
- Ingest0114.Poller: the January loop's MySQL result handles and the leaked Redis replies are not modelled.
- Ingest0318.Daemon: the unfreed `smembers` reply and the contexts leaked on reconnect are not modelled.
- The replies of the January snapshots' `zadd` and `lpush`, which the code prints without checking for NULL, are not modelled.
- A NULL `sqlrow[0]` column from MySQL is not modelled.
- `atoi` overflow is not modelled: integers are unbounded.
- Ingest0114.AfterRun and Ingest0318.AfterRun: the endless `for(;;)` is modelled as a finite script of passes.
- Ingest0318.AfterReconnect: an endless run of failed connection attempts is modelled as the script of attempts ending, with status Stalled.
- Ingest0318.JoinMembers builds the decoration as a string value, not by walking a pointer through a 1024-byte array.
- Ingest0114 and Ingest0318: the per-window functions work on the text each command prints rather than on the FILE stream's buffer.
- Sleep durations are events only. No clock advances between readings.

## Findings

| source | as written | input that shows it | evidently intended | confidence | as-written member | corrected member |
|---|---|---|---|---|---|---|
| main2014.01.14.c:1074 | `memset(SmallBuf, 0, ...)` runs before the record is formatted. `buff[1]` still points into SmallBuf, so the address prints as an empty field and the record starts with a space. | top-talker line "992 222.73.133.32"; detail line "a b c /x"; zero rows for url "/x" | the record starts with the address, as in main2014.01.14.16.c, where that memset is commented out | not executed | Ingest0114.DetailPushAsWrittenExample | Ingest0114.DetailRecordFirstField |
