# domain-security-scanner, modelled in Dafny

This project models the core of the Domain Security Scanner. The scanner looks up
the mail-security DNS records of a domain (SPF, DMARC, DKIM, BIMI, MX and
others) and turns them into advice. The model covers these parts:

- **Record resolution** (`Requests`). CNAME flattening and the one-shot
  truncation retry with a larger EDNS0 buffer (section 6.2.3 of RFC 6891).
  - The candidate names tried for each record type:
    - BIMI: `default._bimi.<d>`, then `<d>`.
    - DMARC: `_dmarc.<d>`, then `<d>` (section 6.1 of RFC 7489).
    - DKIM: `<selector>._domainkey.<d>` (section 3.6.2.1 of RFC 6376).
  - How a TXT record split into several strings is put back together.
  - Following `redirect=` in SPF (section 6.1 of RFC 7208).
  - The `GetDNSRecords` dispatcher.
- **Scanner options** (`Options`). The DKIM selector validator, the
  nameserver `host:port` normalisation and the option setters, over a
  `Scanner` class.
- **The scanner** (`PkgScanner`, `Rotation`, `Semaphores`). The round-robin
  nameserver cursor with its 32-bit counter, the semaphore that bounds
  concurrent scans, the result cache and the record-type dispatch of a scan.
- **The older scanner** (`LegacyScanner`). Its nameserver normaliser, cursor,
  SPF and DMARC lookups and the way a scan merges their errors.
- **The TTL cache** (`TtlCache`). A map with lazy expiry on `Get`, plus `Set`,
  `Flush` and the sweep that cleans up stale entries. Time is an explicit
  `now` argument.
- **Domain sources** (`Sources`). The zone-file and text-file readers: which
  names they emit and in what order, and the closed-flag lifecycle of
  `Read` and `Close`.
- **Advisors** (`Advisor`, `DomainAdvisor`, `Email`, `Strconv`). DMARC tag
  parsing (section 6.3 of RFC 7489), the DKIM, SPF and MX checks and the TLS
  version mapping. `Strconv` models Go's `strconv.Atoi` as the advisor uses
  it.
- **Mail-side text** (`Mail`, `MailAdvice`). `stringify`, the
  DKIM-Signature header-folding state machine with selector extraction,
  and the assembly of the advice e-mail.
- **The command line** (`Cli`). The provider-to-nameserver mapping of
  `SetNameservers` and the argument guard `Check`.

Shared helpers live in `Wrappers` (Option and Result), `Strings` (Go's
`strings` functions used by the code), `Dns` (record types and answers) and
`Net` (host and port joining, with IP parsing left abstract).

The DNS exchange is an oracle parameter: a function from a question to either
an error or a message. Objects whose fields the code updates are classes:
the cache, the scanners, the option target, the sources and the CLI flags.
Every loop in the code is a method with invariants, proved against a
specification function. The properties of those functions are then proved
as lemmas.

## Model

| member | source | states |
|---|---|---|
| TtlCache.GetSpec | pkg/cache/cache.go:33-46 | a present, fresh entry yields its value and leaves the map alone; a present, stale entry yields nothing and is deleted; an absent key yields nothing |
| TtlCache.Swept | pkg/cache/cache.go:64-75 | the sweep keeps exactly the entries that are not stale, each unchanged |
| TtlCache.SetThenGet | pkg/cache/cache.go:33-62 | a Get within the time-to-live after a Set returns the value set |
| TtlCache.SetKeepsOthers | pkg/cache/cache.go:54-62 | a Set of one key changes the answer of Get for no other key |
| TtlCache.SweepInvisible | pkg/cache/cache.go:33-46 | a sweep at the same moment changes no answer Get gives |
| TtlCache.GetSweepsKey | pkg/cache/cache.go:37-41 | Get removes the key it reads exactly when a sweep would, and no other key |
| TtlCache.SweepLater | pkg/cache/cache.go:64-75 | a sweep followed by a later sweep leaves what the later sweep alone leaves |
| TtlCache.Cache.constructor | pkg/cache/cache.go:21-31 | a new cache is empty and keeps the time-to-live it was given |
| TtlCache.Cache.Get | pkg/cache/cache.go:33-46 | the answer and the new map are those of GetSpec |
| TtlCache.Cache.Flush | pkg/cache/cache.go:48-52 | the map is emptied; the time-to-live stays |
| TtlCache.Cache.Set | pkg/cache/cache.go:54-62 | the key maps to the value stamped with the time of the call; nothing else changes |
| TtlCache.Cache.Sweep | pkg/cache/cache.go:68-74 | the map becomes Swept of the old map |
| Rotation.NSAt | pkg/scanner/scanner.go:305-307 | the server picked for a cursor value is the one at the cursor modulo the list length; with no servers there is none (Go's division by zero) |
| Rotation.Next | pkg/scanner/scanner.go:306 | the atomic increment adds one modulo 2^32 |
| Rotation.CursorSum | pkg/scanner/scanner.go:306 | k calls after j calls leave the cursor where j+k calls leave it |
| Rotation.CursorMod | pkg/scanner/scanner.go:306 | after k calls the cursor is the start plus k, modulo 2^32 |
| Rotation.CursorNoWrap | pkg/scanner/scanner.go:306 | before the 32-bit wrap the cursor is the start plus the number of calls |
| Rotation.RoundRobin | pkg/scanner/scanner.go:305-307 | without a wrap, len(ns) consecutive calls reach every server |
| Rotation.RoundRobinDistinct | pkg/scanner/scanner.go:305-307 | without a wrap, len(ns) consecutive calls pick distinct servers, so each exactly once |
| Rotation.WrapRepeats | pkg/scanner/scanner.go:306 | at the 32-bit wrap the rotation can pick the same server twice in a row (three servers, cursor 2^32-2) |
| Semaphores.Semaphore.constructor | pkg/scanner/scanner.go:125 | a new channel of the requested capacity holds no token and is open |
| Semaphores.Semaphore.Acquire | pkg/scanner/scanner.go:226 | a receive takes a token exactly when one is there, and would block otherwise |
| Semaphores.Semaphore.Release | pkg/scanner/scanner.go:230 | a send returns a token exactly when the channel is not full, and would block otherwise |
| Semaphores.Semaphore.Close | pkg/scanner/scanner.go:121-123 | the channel is closed; its capacity and tokens stay |
| Semaphores.Semaphore.Fill | pkg/scanner/scanner.go:158-160 | the loop of sends fills the empty channel to its capacity |
| PkgScanner.Dispatch | pkg/scanner/scanner.go:256-286 | "cname", "mx" and "txt" give a blank result for the name with only that type's records filled and the lookup's error wrapped with "CNAME", "MX" or "TXT"; "all" asks for the nine types and any other type for the five mail types, both wrapping with "All" |
| PkgScanner.Finish | pkg/scanner/scanner.go:288-291 | the duration is set; Error becomes Err's text when there is an error and is kept otherwise; nothing else changes |
| PkgScanner.FillsRecordsOnly | pkg/scanner/requests.go:108-133 | getDNSRecords fills only the record fields of the result it is handed |
| PkgScanner.ErrorText | pkg/scanner/scanner.go:253-291 | for every record type, when getDNSRecords fills only record fields, Error is exactly Err's text, and empty without an error |
| PkgScanner.ScanSpec | pkg/scanner/scanner.go:239-303 | with the cache off the cache is untouched; with it on the name ends up cached with the returned result; no other entry is added, removed or changed |
| PkgScanner.CachedForever | pkg/scanner/scanner.go:240-245 | a result the cache stored is returned by every later scan of the name, whatever the lookups now say, because the freshness test compares with the insertion time |
| PkgScanner.StaleReplaced | pkg/scanner/scanner.go:246-300 | a stale entry is replaced by a new scan, stored with its own timestamp |
| PkgScanner.NormalizeEntry | pkg/scanner/scanner.go:190-198 | a host:port entry is kept; an empty port becomes 53; an entry that does not split gets ":53", bracketed first when it has more than two colons and no bracket |
| PkgScanner.NormalizeAll | pkg/scanner/scanner.go:189-199 | every entry is rewritten as NormalizeEntry says, in order, and none is added or lost |
| PkgScanner.FallbackKept | pkg/scanner/scanner.go:175-182 | with no servers given and no readable resolv.conf, the three fixed servers are used unchanged |
| PkgScanner.Scanner.constructor | pkg/scanner/scanner.go:145-147 | a new scanner has an empty cache, caching off, no servers, the cursor at 0 and no semaphore |
| PkgScanner.Scanner.GetNS | pkg/scanner/scanner.go:305-307 | the cursor moves one step and the server it now points at is returned; nothing else changes |
| PkgScanner.Scanner.SetConcurrentScans | pkg/scanner/scanner.go:117-128 | the old semaphore is closed and a new empty one of size n is made, or of the CPU count when n is not positive |
| PkgScanner.Scanner.SetUseCache | pkg/scanner/scanner.go:132-141 | enabling starts an empty cache and turns caching on; disabling changes nothing |
| PkgScanner.Scanner.SetNameservers | pkg/scanner/scanner.go:170-203 | the servers become the normalised input list (given, resolv.conf's or the fallback); a non-empty caller array is rewritten in place to the same list |
| PkgScanner.Scanner.LookUp | pkg/scanner/scanner.go:252-286 | the result is Dispatch's for the scanner's record type |
| PkgScanner.Scanner.Scan | pkg/scanner/scanner.go:239-303 | the result and the new cache are ScanSpec's; the other fields stay |
| PkgScanner.Scanner.ScanWithToken | pkg/scanner/scanner.go:226-231 | a scan runs exactly when the semaphore has a token, and the token is given back afterwards |
| PkgScanner.Scanner.Start | pkg/scanner/scanner.go:221-235 | the names are scanned in order as ScanAll says, threading the cache; with no token at all the loop would block |
| PkgScanner.ScanAll | pkg/scanner/scanner.go:225-233 | one result per name |
| PkgScanner.ScanAllEffect | pkg/scanner/scanner.go:225-233 | with the cache off, the cache is untouched and every result is the finished Dispatch of its name; with it on, every name scanned ends up cached; an entry for a name not scanned is kept unchanged, and nothing but the scanned names is added |
| PkgScanner.RepeatServedFromCache | pkg/scanner/scanner.go:240-300 | with the cache on, a second scan of a name in one run returns the first scan's result |
| PkgScanner.SemSize | pkg/scanner/scanner.go:149-157 | without a ConcurrentScans option the semaphore has the CPU count as capacity |
| PkgScanner.Scanner.Apply | pkg/scanner/scanner.go:117-141 | one option applied: ConcurrentScans makes a fresh empty semaphore of its size; UseCache(true) starts an empty cache and turns caching on; UseNameservers sets the normalised servers and rewrites a non-empty array to them; each leaves the other fields as they were |
| PkgScanner.LastNameservers | pkg/scanner/scanner.go:149-153 | the position of the last UseNameservers option, so that no later option sets the servers again |
| PkgScanner.ApplyOptions | pkg/scanner/scanner.go:145-153 | after the loop the semaphore, if any, is empty and of SemSize's capacity; caching is on exactly when some option enabled it; the servers are the last UseNameservers option's; when no array is passed twice, each non-empty one is normalised in place and the others are untouched |
| PkgScanner.New | pkg/scanner/scanner.go:144-165 | the options are applied in order; the semaphore has the size of the last ConcurrentScans (or the CPU count) and starts full; caching is on exactly when some option enabled it, with an empty cache; the cursor is 0; the servers are none without a UseNameservers option, and otherwise that of the last one: its array normalised in place, or the resolv.conf or fixed servers for an empty one; the callers' arrays are normalised in place |
| LegacyScanner.TxtQuery | scanner/scanner.go:274-278 | the request asks for the TXT records of the fully qualified name |
| LegacyScanner.TxtStringsConcat | scanner/scanner.go:224-234 | the TXT strings of two answer sections are those of each, in order |
| LegacyScanner.TxtStringsSnoc | scanner/scanner.go:224-229 | one more answer adds its strings when it is a TXT record and nothing otherwise |
| LegacyScanner.FirstMatch | scanner/scanner.go:224-236 | a match starts with the prefix |
| LegacyScanner.FirstMatchSpec | scanner/scanner.go:224-236 | no match exactly when no string has the prefix; a match is a string with the prefix and no string before it has one |
| LegacyScanner.SplitRecordNotJoined | scanner/scanner.go:229-231 | a record split over two strings yields only its first string |
| LegacyScanner.ScanAnswers | scanner/scanner.go:224-236 | the nested loops return FirstMatch |
| LegacyScanner.FoundAt | scanner/scanner.go:229-232 | the first prefixed string the loops reach is FirstMatch |
| LegacyScanner.Search | scanner/scanner.go:240-262 | no names means "" after no query; otherwise between one query and one per name; a value is "" or has the prefix; an error is wrapped "exchange: " |
| LegacyScanner.SearchUnfold | scanner/scanner.go:240-261 | an exchange error or a match ends the search at that name; otherwise it goes on with the next name and the next server |
| LegacyScanner.LookupStep | scanner/scanner.go:240-261 | one round of the loop keeps the search's outcome and the cursor in step |
| LegacyScanner.SpfOneQuery | scanner/scanner.go:217-237 | spf sends one query and returns its error, its first "v=spf1 " string or "" |
| LegacyScanner.DmarcNameFirst | scanner/scanner.go:240-258 | a match under "_dmarc." ends dmarc after one query |
| LegacyScanner.DmarcAborts | scanner/scanner.go:245-248 | an exchange error on the "_dmarc." name aborts dmarc; the domain itself is not asked |
| LegacyScanner.DmarcFallsBack | scanner/scanner.go:240-262 | without a match under "_dmarc.", the domain itself is asked of the next server and its outcome is dmarc's |
| LegacyScanner.ScanMergesErrors | scanner/scanner.go:194-215 | a DMARC error replaces an SPF error in Err; Error is Err's text; each record is filled when its lookup succeeded |
| LegacyScanner.ScanQueries | scanner/scanner.go:194-215 | scan always runs the DMARC lookup, also after an SPF error, and so sends two or three queries |
| LegacyScanner.ScanCursor | scanner/scanner.go:194-215 | the cursor moves once for spf and then once or twice for dmarc |
| LegacyScanner.NormalizeEntry | scanner/scanner.go:70-76 | an entry that does not split gets ":53"; an empty port becomes 53; a host:port entry is kept |
| LegacyScanner.NormalizeAll | scanner/scanner.go:70-77 | every entry is rewritten as NormalizeEntry says, in order, and none is added or lost |
| LegacyScanner.NormalizeEntryStable | scanner/scanner.go:70-76 | rewriting an entry that already split a second time changes nothing |
| LegacyScanner.OptionError | scanner/scanner.go:52-106 | only UseNameservers with no servers and an unreadable resolv.conf fails |
| LegacyScanner.OptionsError | scanner/scanner.go:135-139 | New fails exactly when some option fails |
| LegacyScanner.SemSize | scanner/scanner.go:141-143 | without a ConcurrentScans option the semaphore has the CPU count as capacity |
| LegacyScanner.Scanner.constructor | scanner/scanner.go:131-133 | a new scanner has no servers, the cursor at 0, no timeout and no semaphore |
| LegacyScanner.Scanner.GetNS | scanner/scanner.go:270-272 | the cursor moves one step and the server it now points at is returned; nothing else changes |
| LegacyScanner.Scanner.AskNext | scanner/scanner.go:218-222 | one query goes to the next server and its outcome is Ask's |
| LegacyScanner.Scanner.LookupRound | scanner/scanner.go:244-260 | one round of the loop over names matches one step of Search |
| LegacyScanner.Scanner.Lookup | scanner/scanner.go:240-262 | the result and the cursor are Search's |
| LegacyScanner.Scanner.Spf | scanner/scanner.go:217-237 | the result and the cursor are SpfSpec's |
| LegacyScanner.Scanner.Dmarc | scanner/scanner.go:239-263 | the result and the cursor are DmarcSpec's |
| LegacyScanner.Scanner.Scan | scanner/scanner.go:190-215 | the result and the cursor are ScanSpec's; the other fields stay |
| LegacyScanner.Scanner.SetNameservers | scanner/scanner.go:52-80 | fails only without servers and without resolv.conf, leaving the servers alone; otherwise the servers become the normalised list, and a non-empty caller array is rewritten in place |
| LegacyScanner.Scanner.SetTimeout | scanner/scanner.go:83-88 | the timeout is set and nothing else changes |
| LegacyScanner.Scanner.SetConcurrentScans | scanner/scanner.go:95-106 | the old semaphore is closed and a new empty one of size n is made, or of the CPU count when n is not positive |
| LegacyScanner.Scanner.Apply | scanner/scanner.go:52-106 | one option applied, with OptionError's outcome: WithTimeout sets the timeout; ConcurrentScans makes a fresh empty semaphore of its size; a successful UseNameservers sets the normalised servers and rewrites a non-empty array to them; the other fields are kept |
| LegacyScanner.LastNameservers | scanner/scanner.go:135-139 | the position of the last UseNameservers option, so that no later option sets the servers again |
| LegacyScanner.LastTimeout | scanner/scanner.go:83-88 | the timeout of the last WithTimeout option, and the zero duration without one |
| LegacyScanner.FailAt | scanner/scanner.go:135-139 | every option before it succeeds, and the option at it, if any, fails |
| LegacyScanner.OptionsErrorAt | scanner/scanner.go:135-139 | New's error is the wrapped error of the first failing option, and none when all succeed |
| LegacyScanner.ApplyOptions | scanner/scanner.go:131-139 | the loop returns the first option's error; when all succeed the servers, timeout and empty semaphore are those of the last options that set them; when no array is passed twice, each non-empty array up to the failure is normalised in place and the others are untouched |
| LegacyScanner.New | scanner/scanner.go:130-151 | an option's error is returned, wrapped, with no scanner; otherwise the semaphore has SemSize's capacity and starts full, the cursor is 0, the timeout is the last WithTimeout's, and the servers are those of the last UseNameservers option: its array normalised in place, or resolv.conf's for an empty one, and none without such an option; the callers' arrays are normalised in place up to the failing option |
| Requests.GetDNSAnswers | pkg/scanner/requests.go:82-104 | the first query uses the scanner's buffer size; a second query with 4096 is sent exactly when the first answer is truncated and the buffer is under 4096; the outcome, answers or error, is the last query's |
| Requests.AnswerStrings | pkg/scanner/requests.go:63-74 | a TXT answer gives all its strings, an A, AAAA, MX or NS answer one string, and any other answer nothing |
| Requests.SpliceAssoc | pkg/scanner/requests.go:47-75 | joining the contributions of answers is associative, the first error winning |
| Requests.RecordsOfConcat | pkg/scanner/requests.go:47-75 | the records of two runs of answers are the records of each, joined in order, the first error winning |
| Requests.RecordsOfSingle | pkg/scanner/requests.go:47-74 | a single answer contributes what its own case of the loop gives |
| Requests.RecordsOfWithoutAliases | pkg/scanner/requests.go:47-75 | with no CNAME alias among the answers, the records are the answers' own strings, in order, and there is no error |
| Requests.RecordsOfFailingAlias | pkg/scanner/requests.go:48-53 | a failed recursive lookup of any alias makes the whole lookup fail |
| Requests.QueryRecords | pkg/scanner/requests.go:41-78 | the loop over the answers, with its recursive lookups, returns Records |
| Requests.Reassemble | pkg/scanner/requests.go:145-150 | nothing exactly when no record has the prefix; otherwise the first prefixed record joined with every record after it |
| Requests.SearchNamesFound | pkg/scanner/requests.go:135-154 | the first candidate name with a prefixed record gives the result, when every name before it was looked up without error and matched nothing |
| Requests.SearchNamesStops | pkg/scanner/requests.go:140-143 | a lookup error on a candidate before any match ends the search with "" and no error |
| Requests.SearchNamesNone | pkg/scanner/requests.go:135-154 | no candidate matching gives "" |
| Requests.FirstTxtMatch | pkg/scanner/requests.go:136-153 | the loops over names and records return SearchNames |
| Requests.DkimNames | pkg/scanner/requests.go:159-162 | the caller's selectors come first and then the ten known ones, each as selector._domainkey.domain |
| Requests.GetTypeBIMI | pkg/scanner/requests.go:135-154 | never an error; the value is the search over default._bimi.domain, then the domain |
| Requests.GetTypeDKIM | pkg/scanner/requests.go:158-176 | never an error; the value is the search over the DKIM names |
| Requests.GetTypeDMARC | pkg/scanner/requests.go:180-199 | never an error; the value is the search over _dmarc.domain, then the domain |
| Requests.BimiOrder | pkg/scanner/requests.go:136-150 | the BIMI name is asked first; an error there gives "", a match there wins, and the domain's own records are read only otherwise |
| Requests.DmarcOrder | pkg/scanner/requests.go:181-195 | the _dmarc name is asked first; an error there gives "", a match there wins, and the domain's own records are read only otherwise |
| Requests.FirstFieldWith | pkg/scanner/requests.go:215-221 | the index of the first field containing the needle, or -1 when none does |
| Requests.SpfPropagatesError | pkg/scanner/requests.go:204-207 | the TXT lookup's error is getTypeSPF's error |
| Requests.SpfInSkips | pkg/scanner/requests.go:209-210 | records before the first SPF-prefixed one are skipped |
| Requests.SpfFirstRecord | pkg/scanner/requests.go:209-225 | no SPF record gives ""; the first SPF record without redirect= is returned as it is |
| Requests.RedirectIsWord | pkg/scanner/requests.go:211-217 | "redirect=" has no space in it, so a record holding it has a field holding it |
| Requests.SpfRedirect | pkg/scanner/requests.go:211-219 | a first SPF record holding redirect= is answered by the SPF lookup of the target named in its first field holding it |
| Requests.FindField | pkg/scanner/requests.go:216-221 | the loop over the fields returns FirstFieldWith |
| Requests.GetTypeSPF | pkg/scanner/requests.go:203-226 | the loops over records and fields, with the redirect, return Spf |
| Requests.FillType | pkg/scanner/requests.go:110-125 | the type name is upper-cased; an unknown name is the "invalid dns record type" error; BIMI, DKIM and DMARC set their field to the first matching TXT string of their candidate names, and never fail; MX and NS set their field to the lookup's records, and SPF to its record, each left empty with the lookup's error when it fails; no other field changes |
| Requests.DispatchConcat | pkg/scanner/requests.go:109-132 | running two lists of types is running the first and, unless it failed, the second on its result |
| Requests.DispatchKeepsDomain | pkg/scanner/requests.go:108-133 | the domain of the result is never rewritten |
| Requests.FillOne | pkg/scanner/requests.go:110-129 | the loop body for one type returns FillType |
| Requests.GetDNSRecords | pkg/scanner/requests.go:108-133 | the loop over the types returns Dispatch: the first error stops it |
| Options.CharBytes | pkg/scanner/options.go:146 | a character takes one to four bytes in UTF-8, one exactly when it is ASCII |
| Options.Utf8Len | pkg/scanner/options.go:144-147 | Go's len of a string is at least its number of characters, and zero only for the empty string |
| Options.FirstBadChar | pkg/scanner/options.go:154-159 | the index of the first character outside letters, digits, '-', '.' and '_', or -1 when there is none |
| Options.AsciiLength | pkg/scanner/options.go:146 | an ASCII string has as many bytes as characters |
| Options.OverlongInvalid | pkg/scanner/options.go:146-147 | a selector of more than 63 bytes is never valid |
| Options.SelectorCheck | pkg/scanner/options.go:142-162 | no error exactly for a valid selector; the empty string is the "empty" error; a non-empty selector over 63 bytes is the length error, reporting its byte length; a bad character is one that is really there, the first one |
| Options.ValidateDKIMSelector | pkg/scanner/options.go:142-162 | the checks in order and the loop over the characters return SelectorCheck |
| Options.ConcurrentScans | pkg/scanner/options.go:35-45 | only the pool size changes: the quota, or the CPU count truncated to 16 bits when the quota is 0 |
| Options.DNSBuffer | pkg/scanner/options.go:69-79 | any size is stored; one above 4096 only adds a warning; nothing else changes |
| Options.FirstInvalid | pkg/scanner/options.go:56-60 | the index of the first selector the validator rejects, or -1 |
| Options.DKIMSelectorsStores | pkg/scanner/options.go:49-66 | the selectors are stored exactly when there is at least one and all are valid; otherwise the settings stay; none is the "no DKIM selectors provided" error |
| Options.DKIMSelectorsReportsFirst | pkg/scanner/options.go:56-59 | the error names the problem of the first invalid selector |
| Options.Normalize | pkg/scanner/options.go:106-133 | an entry that neither parses as an address nor splits into a valid host and port is the "invalid IP address" error |
| Options.NormalizeIdempotent | pkg/scanner/options.go:105-134 | normalising a normalised entry changes nothing |
| Options.NormalizePorts | pkg/scanner/options.go:106-133 | a bare address gets port 53, bracketed when it is IPv6; a host:port keeps its port, bracketed when the host is IPv6; anything else fails |
| Options.NormalizeList | pkg/scanner/options.go:105-134 | the list keeps its length |
| Options.NormalizeListSucceeds | pkg/scanner/options.go:105-134 | the loop succeeds exactly when every entry normalises, and then every entry is rewritten |
| Options.NormalizeInPlace | pkg/scanner/options.go:105-134 | the array is rewritten in place as NormalizeList says, up to the first failing entry |
| Options.NormalizeListStops | pkg/scanner/options.go:110-118 | the first failing entry is the error; the entries before it are rewritten and it and those after it are left as they were |
| Options.Nameservers | pkg/scanner/options.go:84-140 | no servers and no resolv.conf gives the three fixed servers; an error leaves the settings alone; on success the servers are the normalised list; a non-empty caller slice is rewritten in place |
| Options.NameserversNormalForm | pkg/scanner/options.go:84-140 | every server a successful WithNameservers stores is already in normal form |
| Options.Scanner.constructor | pkg/scanner/options.go:13-20 | a scanner starts with the settings it is given |
| Options.Scanner.SetCacheDuration | pkg/scanner/options.go:23-28 | only the cache duration changes |
| Options.Scanner.SetConcurrentScans | pkg/scanner/options.go:35-45 | the settings become ConcurrentScans of the old ones |
| Options.Scanner.SetDKIMSelectors | pkg/scanner/options.go:49-66 | the settings and the error are DKIMSelectors of the old settings |
| Options.Scanner.SetDNSBuffer | pkg/scanner/options.go:69-79 | the settings become DNSBuffer of the old ones |
| Options.Scanner.SetNameservers | pkg/scanner/options.go:84-140 | the settings, the error and the caller's array afterwards are those of Nameservers |
| Options.Scanner.OverwriteOption | pkg/scanner/options.go:14-20 | a missing option is the "invalid option" error and changes nothing; any other option runs as its own method says |
| Sources.TrimDots | pkg/scanner/source.go:75 | the trimmed name neither starts nor ends with a dot |
| Sources.ZoneName | pkg/scanner/source.go:70-81 | a record yields a name exactly when it is not NS and its trimmed owner name holds a dot; the name is that trimmed owner name |
| Sources.ZoneNames | pkg/scanner/source.go:70-87 | the filter as evidently intended, record by record: no more names than records |
| Sources.ZoneNamesAreDomains | pkg/scanner/source.go:70-87 | every name sent holds a dot and has no dot at either end |
| Sources.ZoneNamesConcat | pkg/scanner/source.go:70-87 | the intended filter works record by record and keeps their order |
| Sources.ZoneNamesSingle | pkg/scanner/source.go:70-81 | one record yields its name or nothing |
| Sources.SkipsNS | pkg/scanner/source.go:71-73 | in the intended filter an NS record, wherever it stands, changes nothing that is sent |
| Sources.ZoneNamesFromRecords | pkg/scanner/source.go:70-87 | every name sent is the trimmed owner name of some record that is not NS |
| Sources.ReadZone | pkg/scanner/source.go:70-87 | the loop as evidently intended, testing each record in turn, sends ZoneNames of the records |
| Sources.Repeat | pkg/scanner/source.go:70 | n copies of one record |
| Sources.ZoneNamesAsWritten | pkg/scanner/source.go:70-87 | the loop as written sends no more names than there are records |
| Sources.RepeatNames | pkg/scanner/source.go:70-87 | one record checked n times sends its name n times, or nothing |
| Sources.AsWrittenRepeatsFirst | pkg/scanner/source.go:70 | as written, the first record's trimmed name is sent once per record, or nothing is sent when the first record is NS or has no dot |
| Sources.AsWrittenAgreesOnUniform | pkg/scanner/source.go:70 | the loop as written and the intended filter agree when every record is the first one |
| Sources.AsWrittenRepeatsExample | pkg/scanner/source.go:70 | for the records A a.b. and A c.d. the loop as written sends a.b twice, where the intended filter sends a.b and c.d |
| Sources.AsWrittenNSFirstExample | pkg/scanner/source.go:70-73 | for the records NS a.b. and A c.d. the loop as written sends nothing, where the intended filter sends c.d |
| Sources.ReadZoneAsWritten | pkg/scanner/source.go:64-88 | the loop as written, whose token stays the first record, sends ZoneNamesAsWritten of the records |
| Sources.ScanLines | pkg/scanner/source.go:138-139 | no line holds a newline |
| Sources.LineCount | pkg/scanner/source.go:138-139 | one line per newline, plus one for a last line without a newline |
| Sources.TextNames | pkg/scanner/source.go:139-140 | one name per line, the line with its dots trimmed; none is skipped |
| Sources.ReadText | pkg/scanner/source.go:136-148 | the loop sends TextNames of the lines |
| Sources.Channel.constructor | pkg/scanner/source.go:54 | a new channel carries the given names and is open |
| Sources.ZonefileSource.constructor | pkg/scanner/source.go:36-38 | a new zone source has no channel, no stop channel and is open |
| Sources.ZonefileSource.Read | pkg/scanner/source.go:47-62 | nil once closed; the channel already made, if any; otherwise a new channel carrying what the loop as written sends |
| Sources.ZonefileSource.Close | pkg/scanner/source.go:90-105 | closing the closed source does nothing; closing before Read panics on the nil channel; closing after Read closes the channel and panics, because the drain is skipped on the unbuffered channel and the reading goroutine also closes it; the source is never marked closed |
| Sources.TextSource.constructor | pkg/scanner/source.go:109-111 | a new text source has no channel, no stop channel and is open |
| Sources.TextSource.Read | pkg/scanner/source.go:120-134 | nil once closed; the channel already made, if any; otherwise a new channel carrying the trimmed lines of the text |
| Sources.TextSource.Close | pkg/scanner/source.go:150-164 | closing twice is harmless; closing before Read panics on the nil stop channel; otherwise the source is closed |
| Advisor.Texts | pkg/advisor/advisor.go:154-403 | one wording per advice line, in the same order |
| Advisor.DkimFirstThree | pkg/advisor/advisor.go:162-179 | only the first three tags of a DKIM record can raise a finding |
| Advisor.DkimVerdict | pkg/advisor/advisor.go:159-188 | a record with ';' is answered with the single "DKIM is setup" line exactly when the version, algorithm and key tags pass; otherwise with the findings alone |
| Advisor.DkimTagsVerdict | pkg/advisor/advisor.go:162-188 | the same verdict, stated on the list of tags |
| Advisor.DkimWithoutTags | pkg/advisor/advisor.go:155-182 | an empty record gives the "no DKIM record" line and a non-empty one without ';' the "malformed" line |
| Advisor.CheckDkimTag | pkg/advisor/advisor.go:163-178 | the check of one tag by its position returns DkimTagLines |
| Advisor.CheckDKIM | pkg/advisor/advisor.go:154-189 | the loop over the tags returns the wordings of DkimLines |
| Advisor.SplitTagParts | pkg/advisor/advisor.go:205-211 | a part has a tag exactly when it holds '='; the key is the text before the first '=' and the value all the text after it |
| Advisor.Tags | pkg/advisor/advisor.go:201-205 | one tag per part, in order |
| Advisor.ReadTagsAdvice | pkg/advisor/advisor.go:204-306 | the advice of the tag loop is the advice of each tag taken on its own, in tag order |
| Advisor.ReadTagsOptions | pkg/advisor/advisor.go:249-289 | the failure options and the subdomain policy are those of the last fo and sp tags, "" without one |
| Advisor.ReadTagsDestinations | pkg/advisor/advisor.go:262-284 | the aggregate and forensic lists are empty exactly when there is no rua or ruf tag |
| Advisor.DmarcShape | pkg/advisor/advisor.go:191-325 | the advice for a record with ';' is every tag's advice in order, then a suggestion for each of rua, fo, ruf and sp that is missing (fo and sp also when empty) |
| Advisor.RecordShape | pkg/advisor/advisor.go:204-324 | the same shape, on the list of tags |
| Advisor.MissingTags | pkg/advisor/advisor.go:308-322 | the four suggestions follow the last rua, fo, ruf and sp tags, in that order |
| Advisor.DmarcWithoutTags | pkg/advisor/advisor.go:192-198 | an empty record gives "You do not have DMARC setup!" and a non-empty one without ';' only the "malformed" line |
| Advisor.AllPartLinesIn | pkg/advisor/advisor.go:204-306 | a line is in the tags' advice exactly when some tag raises it |
| Advisor.DestinationLinesIn | pkg/advisor/advisor.go:264-284 | a line is in a destination list's advice exactly when some destination raises it |
| Advisor.AggregateDestination | pkg/advisor/advisor.go:264-272 | an aggregate destination raises the mailto line exactly without "mailto:" and, independently, the address line exactly when the rest is not an address |
| Advisor.ForensicDestination | pkg/advisor/advisor.go:275-284 | a forensic destination raises the mailto line exactly without "mailto:", and the address line only with "mailto:" and an invalid address |
| Advisor.DestinationLinesOnly | pkg/advisor/advisor.go:262-284 | rua destinations raise aggregate lines only and ruf destinations forensic lines only |
| Advisor.VersionTag | pkg/advisor/advisor.go:214-219 | the version line is raised exactly by a v tag that is not first or not "DMARC1" |
| Advisor.PolicyTag | pkg/advisor/advisor.go:220-248 | the second-tag line is raised exactly by a p tag out of second place; the invalid-policy line exactly by a p tag other than none, quarantine or reject |
| Advisor.SubdomainTag | pkg/advisor/advisor.go:249-254 | the invalid subdomain line is raised exactly by an sp tag other than none, quarantine or reject |
| Advisor.FailureOptionsTag | pkg/advisor/advisor.go:285-289 | the invalid failure options line is raised exactly by an fo tag other than 0, 1, d or s |
| Advisor.PercentageTag | pkg/advisor/advisor.go:255-261 | the percentage line is raised exactly by a pct tag that is not an integer from 0 to 100 |
| Advisor.IntervalTag | pkg/advisor/advisor.go:294-304 | the "positive integer" line is raised exactly by an ri tag that is not a 64-bit integer; a negative one raises the "positive value" line, and only a value starting with '-' can |
| Advisor.AtoiNegative | pkg/advisor/advisor.go:295-301 | a negative parse comes only from text starting with '-' |
| Advisor.IntervalOverflow | pkg/advisor/advisor.go:294-302 | a negative interval past the 64-bit range raises both interval lines |
| Advisor.PolicyLines | pkg/advisor/advisor.go:227-248 | a policy is valid exactly when its line is not the invalid-policy line, and the six policy lines tell apart the policy and whether rua is present |
| Advisor.MessagesByTag | pkg/advisor/advisor.go:191-325 | any line other than the four suggestions is in the advice exactly when some tag raises it |
| Advisor.RecordMessages | pkg/advisor/advisor.go:204-324 | the same, on the list of tags |
| Advisor.CheckAggregate | pkg/advisor/advisor.go:263-272 | the loop over rua destinations returns their lines in order |
| Advisor.CheckForensic | pkg/advisor/advisor.go:274-284 | the loop over ruf destinations, with its continue, returns their lines in order |
| Advisor.ApplyTag | pkg/advisor/advisor.go:205-211 | one part is split and applied as Step says; a part without '=' changes nothing |
| Advisor.ApplyKeyValue | pkg/advisor/advisor.go:213-305 | the switch on the key sets that key's field and appends that tag's advice |
| Advisor.ReadRecord | pkg/advisor/advisor.go:204-306 | the loop over the parts returns ReadTags |
| Advisor.CheckDMARC | pkg/advisor/advisor.go:191-325 | the advice is the wordings of DmarcLines |
| Advisor.AddSuggestions | pkg/advisor/advisor.go:308-324 | the four checks append their suggestions after the tag advice |
| Advisor.MxLines | pkg/advisor/advisor.go:346-354 | one line: no servers, a single server or several, exactly by the list's length |
| Advisor.PlusAllHasAll | pkg/advisor/advisor.go:394-397 | a record with "+all" also holds "all", so the +all branch is reached |
| Advisor.SpfLines | pkg/advisor/advisor.go:389-403 | one line: no record exactly for "", the +all line exactly when "+all" occurs, the missing-all line exactly for a record without "all", the good line otherwise |
| Advisor.TlsLine | pkg/advisor/advisor.go:522-535 | each of the four TLS versions has its own line; any other version is unrecognised |
| Advisor.TlsLineInjective | pkg/advisor/advisor.go:522-535 | two versions share a line only when neither is recognised |
| Email.ValidateEmail | pkg/advisor/advisor.go:537-542 | true exactly when the address matches the pattern; the length guard never rejects |
| Email.MatchMinLength | pkg/advisor/advisor.go:18 | a matching address has at least three characters |
| Email.MatchOneAt | pkg/advisor/advisor.go:18 | a matching address has exactly one '@' |
| DomainAdvisor.DkimLines | pkg/domainadvisor/domainadvisor.go:24-32 | one line: "no DKIM record" exactly for "", "DKIM is setup" exactly otherwise |
| DomainAdvisor.DomainLines | pkg/domainadvisor/domainadvisor.go:122-127 | at most one line, the consumer line exactly for a consumer domain |
| DomainAdvisor.MxLines | pkg/domainadvisor/domainadvisor.go:129-138 | no line exactly for two or more servers; the no-server line exactly for none; the single-server line exactly for one |
| DomainAdvisor.SpfLines | pkg/domainadvisor/domainadvisor.go:140-155 | no line exactly when "all" occurs without "+all"; the no-record line exactly for ""; the +all line exactly when "+all" occurs; the missing-all line exactly for a non-empty record without "all" |
| DomainAdvisor.PlusAllHasAll | pkg/domainadvisor/domainadvisor.go:146-149 | a record with "+all" also holds "all", so the +all branch is reached |
| DomainAdvisor.PolicyLine | pkg/domainadvisor/domainadvisor.go:56-84 | the invalid-policy line exactly for a policy other than none, quarantine and reject; a "receiving reports" line exactly for a valid policy in a record holding "rua=" |
| DomainAdvisor.VersionLines | pkg/domainadvisor/domainadvisor.go:50-53 | the first segment raises the version line, and only it, exactly when it lacks "v=DMARC1" |
| DomainAdvisor.SecondLines | pkg/domainadvisor/domainadvisor.go:54-87 | the second segment raises one line: the second-tag line exactly when it does not hold "p=" without "sp=", otherwise a policy line |
| DomainAdvisor.LaterLines | pkg/domainadvisor/domainadvisor.go:88-112 | a later segment raises only the two rua lines |
| DomainAdvisor.DmarcWithoutSegments | pkg/domainadvisor/domainadvisor.go:35-38 | an empty record gets the "no DMARC" line and a non-empty one without ';' only the "malformed" line |
| DomainAdvisor.DmarcBySegment | pkg/domainadvisor/domainadvisor.go:40-114 | a line is in the advice exactly when some segment raises it at its 1-based position |
| DomainAdvisor.SegmentsIn | pkg/domainadvisor/domainadvisor.go:43-114 | the same, on the list of segments |
| DomainAdvisor.VersionSegment | pkg/domainadvisor/domainadvisor.go:49-53 | only the first segment can raise the version line, and it does so exactly without "v=DMARC1" |
| DomainAdvisor.PolicySegment | pkg/domainadvisor/domainadvisor.go:54-87 | only the second segment can raise the second-tag line; holding "p=" without "sp=" it raises just the line of the policy after a leading "p=" |
| DomainAdvisor.RuaSegment | pkg/domainadvisor/domainadvisor.go:88-112 | a later segment raises each rua line at most once, the mailto line exactly when an address of its rua tag lacks "mailto:", the address line exactly when an address with "mailto:" is invalid |
| DomainAdvisor.VersionLine | pkg/domainadvisor/domainadvisor.go:44-53 | the version line is in the advice exactly when the first segment lacks "v=DMARC1" |
| DomainAdvisor.SecondTagLine | pkg/domainadvisor/domainadvisor.go:54-87 | the second-tag line is in the advice exactly when there is a second segment and it does not hold "p=" without "sp=" |
| DomainAdvisor.MailtoLine | pkg/domainadvisor/domainadvisor.go:88-107 | the mailto line is in the advice exactly when a segment from the third on has an rua tag with an address lacking "mailto:" |
| DomainAdvisor.AddressLine | pkg/domainadvisor/domainadvisor.go:88-111 | the address line is in the advice exactly when a segment from the third on has an rua tag with an invalid "mailto:" address |
| DomainAdvisor.EarlySegment | pkg/domainadvisor/domainadvisor.go:49-87 | the first two segments never raise an rua line, even when they hold "rua=" |
| DomainAdvisor.ScanAddresses | pkg/domainadvisor/domainadvisor.go:93-103 | the loop over the addresses sets each flag exactly when some address calls for it |
| DomainAdvisor.FlagsSnoc | pkg/domainadvisor/domainadvisor.go:94-103 | one more address sets a flag exactly when the earlier ones did or it calls for it |
| DomainAdvisor.CheckSegment | pkg/domainadvisor/domainadvisor.go:45-113 | the switch on the counter returns the segment's lines |
| DomainAdvisor.CheckSegments | pkg/domainadvisor/domainadvisor.go:43-114 | the loop over the segments returns AllSegmentLines |
| DomainAdvisor.CheckNextSegment | pkg/domainadvisor/domainadvisor.go:44-113 | one round of the loop adds the lines of the next segment |
| DomainAdvisor.AllSegmentLinesTake | pkg/domainadvisor/domainadvisor.go:44-114 | the lines of one more segment are appended after those of the segments before it |
| DomainAdvisor.CheckDMARC | pkg/domainadvisor/domainadvisor.go:34-120 | the advice is the wordings of DmarcLines |
| DomainAdvisor.CheckAll | pkg/domainadvisor/domainadvisor.go:12-22 | the advice has exactly the five keys DKIM, DMARC, DOMAIN, MX and SPF, each holding its check's answer |
| Strconv.AtoiSpec | pkg/advisor/advisor.go:256 | strconv.Atoi succeeds exactly on an optional sign and digits within the 64-bit range, and then gives their value; on failure the value is 0 or a range end |
| Strconv.AtoiClamps | pkg/advisor/advisor.go:295 | well-formed text outside the 64-bit range gives the nearest range end and an error |
| Strconv.AtoiOverflowThenJunk | pkg/advisor/advisor.go:295-302 | a negative number past the range followed by junk gives the lowest 64-bit value and an error, not 0 |
| Strconv.AtoiIntToString | pkg/advisor/advisor.go:256-261 | Atoi reads back every 64-bit integer from its decimal text |
| Strconv.ParseDigitsSpec | pkg/advisor/advisor.go:256 | the unsigned digit parse succeeds exactly on digits whose value fits 64 bits, and then gives that value |
| Mail.LeadingEmpty | pkg/mail/mail.go:199-206 | the number of leading empty items: each before it is empty and the one at it is not |
| Mail.StringifiedEmpty | pkg/mail/mail.go:198-210 | stringify gives "" exactly when every item is empty |
| Mail.StringifiedJoin | pkg/mail/mail.go:198-210 | with no empty item, stringify joins the items with newlines |
| Mail.StringifiedSingle | pkg/mail/mail.go:198-210 | a single item is returned as it is |
| Mail.JoinFirst | pkg/mail/mail.go:204 | a newline join starts with its first item |
| Mail.JoinSnoc | pkg/mail/mail.go:204 | one more item is appended after a separator |
| Mail.Stringify | pkg/mail/mail.go:198-210 | the loop returns Stringified: leading empty items are dropped and the rest joined with newlines, later empty items included |
| Mail.ScanHeader | pkg/mail/mail.go:73-90 | the header loop computes ScanFrom of its lines |
| Mail.FirstSignature | pkg/mail/mail.go:84-88 | the index of the first header line holding "DKIM-Signature", or the number of lines |
| Mail.FirstUnfolded | pkg/mail/mail.go:76-82 | the index of the first line that is not a folded continuation, or the number of lines |
| Mail.FoldedStep | pkg/mail/mail.go:76-89 | a folded line after a signature is added, and again trimmed when it holds "DKIM-Signature" itself |
| Mail.UnfoldedStep | pkg/mail/mail.go:76-84 | the first unfolded line after a signature ends the collection |
| Mail.DoneStays | pkg/mail/mail.go:76-89 | once done, no later line changes anything |
| Mail.SkipToSignature | pkg/mail/mail.go:75-90 | the lines before the first signature change nothing |
| Mail.ScanFromAppend | pkg/mail/mail.go:75-90 | the loop over two runs of lines is the loop over the second from where the first left off |
| Mail.CollectFolded | pkg/mail/mail.go:76-79 | a block of folded lines after a signature adds their pieces, in order |
| Mail.CollectEnds | pkg/mail/mail.go:76-82 | a block of folded lines ended by an unfolded one leaves the state done with the collected text |
| Mail.HeaderSignature | pkg/mail/mail.go:73-90 | without a signature nothing is found; otherwise the result is the first signature line trimmed of the cutset, then the folded lines after it, done exactly when an unfolded line ends them |
| Mail.FromSignature | pkg/mail/mail.go:76-90 | the same, for lines that start with the signature |
| Mail.AfterSignature | pkg/mail/mail.go:76-90 | after a signature the folded lines are collected up to the first unfolded one |
| Mail.FindSelector | pkg/mail/mail.go:101-109 | the text after " s=" of the first ';' segment starting with it, or the whole text when none does |
| Mail.NormalizedSpaces | pkg/mail/mail.go:92-95 | after the rewrite every space follows a ';' and every ';' is followed by a space |
| Mail.ReplaceSemicolons | pkg/mail/mail.go:94 | in text without spaces, the ';' rewrite puts a space after each ';' and nowhere else |
| Mail.FoundKeys | pkg/mail/mail.go:97-115 | a host is a key of the result exactly when some message with a sender has it as its first sender's host |
| Mail.FoundLast | pkg/mail/mail.go:111-114 | a host's entry is that of the last message from it |
| Mail.ReadMessages | pkg/mail/mail.go:68-116 | the loop over the messages returns Found and the sequence numbers to delete |
| Mail.GetMail | pkg/mail/mail.go:37-142 | an empty mailbox is "no new messages" and deletes nothing; otherwise the messages with a sender are deleted, and no entry is "no valid messages" |
| Mail.NoValidMessages | pkg/mail/mail.go:97-99 | no entry exactly when no message has a sender |
| MailAdvice.OrDefault | pkg/mail/advice.go:72-74 | the value when it is not empty, the default otherwise |
| MailAdvice.Entries | pkg/mail/advice.go:65-104 | a non-empty domain advice is the single DOMAIN entry; otherwise the DKIM, DMARC, MX and SPF entries in that order, each its advice or the default |
| MailAdvice.StringifyOr | pkg/mail/advice.go:72-74 | the stringified advice, or the default when it is empty |
| MailAdvice.EntriesFrom | pkg/mail/advice.go:65-104 | the entries built from the advice map are Advised of its five values |
| MailAdvice.DomainAdvice | pkg/mail/advice.go:60-105 | the entries are AdviceOf the scan result |
| MailAdvice.PrepareEmail | pkg/mail/advice.go:10-58 | the body holds the advice entries, the fixed title, signature and outro, and the results table exactly when the first entry is not DOMAIN |
| MailAdvice.StringifiedLines | pkg/mail/advice.go:65-96 | stringified advice is empty exactly when every wording is empty |
| MailAdvice.SingleLine | pkg/mail/advice.go:65-96 | a single line of advice is its wording |
| MailAdvice.DomainEntry | pkg/mail/advice.go:63-70 | the DOMAIN entry stands alone exactly for a consumer domain; otherwise the four entries follow in order |
| MailAdvice.DkimEntry | pkg/mail/advice.go:72-78 | a non-empty DKIM record gets the default wording; an empty one the "no DKIM record" wording |
| MailAdvice.DmarcEntry | pkg/mail/advice.go:80-86 | a DMARC record that raises no line gets the default; otherwise its joined wordings |
| MailAdvice.MxEntry | pkg/mail/advice.go:88-94 | two or more servers get the default; none or one get their line |
| MailAdvice.SpfEntry | pkg/mail/advice.go:96-102 | an SPF record with "all" and no "+all" gets the default; otherwise its one line |
| Cli.ProviderServers | cmd/cmd.go:43-52 | a provider name has servers exactly when it is one of the five |
| Cli.ProviderPorts | cmd/cmd.go:43-52 | each provider stands for at least two servers, each on port 53 |
| Cli.KnownPrefix | cmd/cmd.go:43-59 | the number of names from the front that are known: all before it are, the one at it is not |
| Cli.Flags.constructor | cmd/cmd.go:10-11 | the flags hold the given provider names and nameservers |
| Cli.Flags.SetNameservers | cmd/cmd.go:39-60 | the provider names stay and the nameservers and fatal error are Applied to the old values |
| Cli.ExpandAppend | cmd/cmd.go:43-52 | the servers of two lists of names are those of each, in order |
| Cli.ServersPort53 | cmd/cmd.go:43-52 | every server the providers add is on port 53 |
| Cli.AllKnown | cmd/cmd.go:43-52 | with only known names there is no error and their servers are appended in order |
| Cli.KnownPrefixAppend | cmd/cmd.go:43-59 | known names in front add their count to the known prefix |
| Cli.AppliedTwice | cmd/cmd.go:43-52 | applying two lists in turn is applying them together, when the first has no unknown name |
| Cli.UnknownStops | cmd/cmd.go:57-59 | an unknown name is the fatal error whatever follows, and the servers of the names before it stay |
| Cli.Check | cmd/cmd.go:30-37 | no arguments means help and exit status 0; any argument means go on |
| Dns.Fqdn | pkg/scanner/requests.go:84 | a fully qualified name is kept; any other name gets the root dot |
| Net.JoinHostPort | pkg/scanner/scanner.go:197 | a host with a colon is bracketed before the port |

## Left out

- DNS exchanges (`dns.Client.Exchange`, `net.LookupTXT`) are an oracle parameter. Reading resolv.conf is a parameter too, and the zone parser is replaced by a sequence of parsed records. All of these are foreign I/O.
- The parsing in `netip.ParseAddr` and `net.SplitHostPort` is a `NetLib` parameter. It is a library parser, so the model keeps only its results: whether the text is an IP, which family, and how the text splits.
- CNAME recursion in `getDNSRecords` and SPF redirect recursion in `getTypeSPF` have no depth or cycle guard in the code. The model bounds both with an explicit fuel argument, and running out of fuel gives an error value. Termination of the code itself is not claimed.
- Concurrency is left out: goroutines, mutexes, the `cleanup` sleep loop, the `sync.WaitGroup` and channel blocking. The model keeps only the sequential effects:
  - the semaphore is a token counter;
  - a receive from an empty semaphore, which would wait forever, is a `blocked` result;
  - the cache sweep is a single step.
- Wall-clock time is integer timestamps, and durations are integers.
- The TLS and HTTP probes are left out: `checkHostTls`, `checkMailTls`, the HTTP HEAD requests of `CheckBIMI`, and the TLS branch of `CheckMX`. These network-dependent paths also take out the advisor's `CheckBIMI`, `CheckDomain` and `CheckAll`.
- Advisor.CheckTlsVersion has no contract of its own, because it only reads out the text of `TlsLine`. The contract on `TlsLine` states the mapping.
- The consumer-domain list (`consumerDomains`) is not part of this model. It is a set parameter.
- The e-mail regular expression is written out as a predicate over characters (`Email.MatchesEmail`), not run as a regular expression.
- The IMAP and SMTP transport of `GetMail` is not modelled: login, select, fetch, flagging, expunge and `SendMail`. Neither is the hermes e-mail rendering, the templates, or the HTTP server. The model keeps the header loop, the selector extraction and the From filter, over messages that are already fetched.
- The 64 KiB line limit of `bufio.Scanner` in the text source is not modelled. Neither is invalid UTF-8.
- Cobra flag parsing, help text and output are left out. A `log.Fatal` or `os.Exit` becomes a returned value or a `Decision`, and the exit of the process is not modelled.
- PkgScanner.Scanner.GetNS: with an empty nameserver list, the cursor's `% len(s.Nameservers)` panics with an integer division by zero (pkg/scanner/scanner.go:306). The model returns `None` instead.
- LegacyScanner.Scanner.GetNS: the same division by zero (scanner/scanner.go:271) becomes `None` as well.
- PkgScanner.Scanner.SetNameservers, LegacyScanner.Scanner.SetNameservers, Options.Nameservers and Options.Scanner.SetNameservers store the servers as a value. The code stores a slice of the caller's array (`ns[:]` at pkg/scanner/scanner.go:200 and scanner/scanner.go:77, `nameservers[:]` at pkg/scanner/options.go:136), so a later write by the caller to that array would change the scanner's servers. The model does not capture that alias.
- LegacyScanner.Scanner.AskNext, LegacyScanner.Scanner.LookupRound, LegacyScanner.Scanner.Lookup, LegacyScanner.Scanner.Spf, LegacyScanner.Scanner.Dmarc and LegacyScanner.Scanner.Scan require a non-empty nameserver list. The older `New` without `UseNameservers` leaves the list nil, and the cursor's `% len(s.Nameservers)` then panics with a division by zero (scanner/scanner.go:271). These methods do not model that panic.
- Requests.GetDNSAnswers models the retry of a truncated answer as a fresh question with a 4096-byte EDNS0 size. The code calls `SetEdns0` a second time on the same message (pkg/scanner/requests.go:85 and 95), which may leave two OPT records in it. The wire form of the message is not part of this model.
- PkgScanner.New: when one array is passed to two `UseNameservers` options, only the servers are stated, not the array's final contents. The in-place rewrite of each array is stated when no array is shared.
- LegacyScanner.New: the same holds for an array passed to two options.
- The older scanner's `start` worker loop and its channels are left out, because they are concurrency. Its EDNS0 size is a constant 0, since it never sets one.
- The requests model does not record which nameserver a DNS question was sent to. The rotation is modelled separately in `Rotation`.
- The `*ScanResult` pointers are modelled as values.
- `pkg/scanner/scanner.go` and `requests.go`/`options.go` come from different revisions. Each is modelled on its own terms, and they are not joined into one class.
- MailAdvice.DomainEntry: the advisor wording's non-emptiness is a condition, not a lemma. Every wording is a non-empty literal, but proving it for the long literals is beyond the verifier's resource limit.
- MailAdvice.DkimEntry: the advisor wording's non-emptiness is a condition, not a lemma, for the same reason.
- MailAdvice.DmarcEntry: the advisor wording's non-emptiness is a condition, not a lemma, for the same reason.
- MailAdvice.MxEntry: the advisor wording's non-emptiness is a condition, not a lemma, for the same reason.
- MailAdvice.SpfEntry: the advisor wording's non-emptiness is a condition, not a lemma, for the same reason.

## Where the code and its description differ

The model follows the code in each case:

- `WithDNSBuffer` accepts a buffer over 4096 and only logs a warning.
- `getTypeSPF` returns the TXT lookup error. The BIMI, DKIM and DMARC lookups swallow theirs.
- Following an SPF `redirect=` makes no check for an `all` mechanism.
- The zone source trims every leading and trailing dot from a name, not just one.
- An empty nameserver list first tries the resolvers in resolv.conf. Only when that fails does it fall back to the three fixed servers.
- In the older scanner, an empty nameserver list with an unreadable resolv.conf is an error.
- The zone source's `Close` closes the channel Read made, but its channel is unbuffered. The drain guarded by `len(src.ch) > 0` therefore never runs, and the reading goroutine's own deferred close (or its next send) then meets a closed channel, which panics. `Sources.ZonefileSource.Close` returns that panic, and the source is never marked closed.

## Behaviour worth knowing

- One DKIM advice text reads "k=rsa or a=rsa=sha256". The model keeps the wording as written.
- Go's `strconv.Atoi` reports an out-of-range error before a syntax error, so a long run of digits followed by junk is an overflow rather than invalid syntax. `Strconv.AtoiOverflowThenJunk` states this.
- In the DKIM header loop, `strings.Trim` with the cutset "DKIM-Signature:" strips characters from that set at both ends. It does not strip a prefix.
- The length guard `len < 3 && len > 254` in `validateEmail` can never be true, so it rejects nothing (`Email.ValidateEmail`).
- The pkg scanner's cache compares the entry's Expiry field with the current time. Expiry holds the insertion time: the age is Expiry minus now, which is never positive, and the test is whether it is under 60 seconds. An entry therefore never goes stale, and every later scan of the name is served from the cache (`PkgScanner.CachedForever`, `PkgScanner.RepeatServedFromCache`).
- The round-robin cursor is a 32-bit counter. At the wrap it repeats a server whenever the list length does not divide 2^32 (`Rotation.WrapRepeats`).
- The older scanner's SPF and DMARC lookups read each TXT string on its own. A record split over several strings is not reassembled (`LegacyScanner.SplitRecordNotJoined`).
- The zone source's loop is `for tok, ok := z.Next(); ok; _, ok = z.Next()`. Its post statement throws each new token away, so every round tests the first record again. The source therefore sends the first record's trimmed name once per record, or nothing when the first record is NS or has no dot (`Sources.AsWrittenRepeatsFirst`, `Sources.AsWrittenRepeatsExample`, `Sources.AsWrittenNSFirstExample`). `Sources.ZonefileSource.Read` follows the code as written. `Sources.ZoneNames` and its lemmas describe the filter as evidently intended.
