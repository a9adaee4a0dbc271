# DMR probe: batching and reply triage

This project models the core of `DmrProbe`, the readiness/liveness probe that asks a
JBoss EAP server's management interface (the DMR API) about several things at once.
The model covers four parts of the probe:

- **Batching.** Every test's query becomes one step of a single management `composite`
  operation. The envelope is `operation="composite"`, `address=[]`, `json.pretty=1` and
  `steps`.
- **Positional results.** Test *i* reads the *i*-th value of the reply's `result` object,
  in insertion order. Position is the only link between a step and its result.
- **Status gate and triage.**
  - Statuses 200 and 403 return the parsed body as it is.
  - Any other status first goes through `failUnusableResponse`. That check lets a reply
    through only when all of these hold:
    - its outcome is `"failed"`;
    - its `result` is a non-empty object;
    - it has at least one entry per test, and the first *n* entries are truthy in
      Python's sense.
- **Configuration.**
  - The port is 9990 plus the port offset.
  - Host, user and password are tokens 1, 3 and 5 of the stripped netrc line split on
    `" "`, each stripped. The line must have exactly six tokens.
  - The first blank credential, in the order host, user, password, is an error.

Modules:

- `Wrappers` (`wrappers.dfy`): `Option`, `Result` and `Outcome`.
- `Json` (`json.dfy`): parsed JSON values. Objects are ordered entry lists, like the
  `OrderedDict` the probe asks the JSON parser for. The module also defines Python
  truthiness (`Truthy`) and dictionary lookup.
- `PyStr` (`pystr.dfy`): Python's `str.strip()` and `str.split(" ")`, with `Join` as the
  inverse of `Split`.
- `ProbeConfig` (`config.dfy`): the pure part of `__readConfig`.
- `Dmr` (`dmr.dfy`):
  - every Python exception on these paths, as `Failure`;
  - the specification functions `CompositeRequest`, `Triage` and `SendOutcome`;
  - `GetTestInput`;
  - the class `DmrProbe`. Its methods `CreateRequest` and `FailUnusableResponse` keep
    the source's loops, and `SendRequest` keeps its status gate; each is proved equal to
    its specification function. `ReadConfig` assigns the probe's fields.

Each Python exception raised on these paths is a `Failure` value:

| `Failure` | Python exception | When it is raised |
|---|---|---|
| `ValueError` | `ValueError` | the body does not parse |
| `KeyError` | `KeyError` | `outcome` or `result` is absent |
| `TypeError` | `TypeError` | the body is a truthy non-object |
| `AttributeError` | `AttributeError` | `.values()` is called on a non-object `result` |
| `IndexError` | `IndexError` | there are fewer result entries than tests |
| `ProbeRequestFailed(status)` | `Exception` | "Probe request failed" |

Four behaviours of the code that are easy to misread:

- **Unparseable body.** For a body that does not parse, the unusable path does not raise
  the "Probe request failed" exception. Building that exception's message parses the
  body again, and that raises `ValueError` (dmr.py:160).
- **Extra result entries.** The code does not require exactly one result entry per step.
  Entries past position *n* - 1 are never looked at (dmr.py:153-154).
- **Too few result entries.** When all entries are truthy but there are fewer than
  *n*, the walk raises `IndexError`. It does not raise the unusable exception
  (dmr.py:154). A falsy entry found first still gives the unusable exception.
- **Non-object body.** A truthy body that is not an object raises `TypeError` at the
  `outcome` subscript (dmr.py:147).

## Model

| member | source | states |
|---|---|---|
| `Dmr.DmrProbe.constructor` | modules/eap/setup/eap/modules/added/probes/probe/dmr.py:33-34 | the new probe holds exactly the given tests' queries, in order; host, port, user and password are placeholders until `ReadConfig` runs |
| `Dmr.DmrProbe.CreateRequest` | modules/eap/setup/eap/modules/added/probes/probe/dmr.py:99-108 | the loop that appends each test's query yields exactly the composite request of the tests' queries |
| `Dmr.CompositeRequestCarriesQueries` | modules/eap/setup/eap/modules/added/probes/probe/dmr.py:99-108 | the request is a composite envelope whose `steps` are the queries, one per test, in order (none for no tests) |
| `Dmr.EnvelopeDeterminedBySteps` | modules/eap/setup/eap/modules/added/probes/probe/dmr.py:103-108 | any object with exactly the keys operation, address, json.pretty and steps, holding "composite", [] and 1 and an array of steps, is the composite request of those steps: the envelope holds nothing else |
| `Dmr.GetTestInput` | modules/eap/setup/eap/modules/added/probes/probe/dmr.py:96-97 | test i gets the i-th value of `result` in insertion order; it fails with TypeError, KeyError, AttributeError or IndexError when the reply is not an object, has no `result`, `result` is not an object, or i is out of range |
| `Dmr.ScanFromMeaning` | modules/eap/setup/eap/modules/added/probes/probe/dmr.py:153-156 | the walk over the first n result values ends with all present exactly when n values exist and are all truthy, stops at the first falsy one, or runs off the end when fewer than n exist and all are truthy |
| `Dmr.ScanIgnoresTail` | modules/eap/setup/eap/modules/added/probes/probe/dmr.py:153-156 | entries past position n - 1 never change the walk's verdict |
| `Dmr.DmrProbe.FailUnusableResponse` | modules/eap/setup/eap/modules/added/probes/probe/dmr.py:140-160 | the method with its flag, loop and break returns normally or raises exactly as the triage function says for the probe's number of tests |
| `Dmr.TriagePassesExactlyUsable` | modules/eap/setup/eap/modules/added/probes/probe/dmr.py:147-156 | the classifier returns normally if and only if the body is an object with outcome "failed" and a non-empty `result` object of at least n entries whose first n values are truthy |
| `Dmr.UnexpectedShapeIsUnusable` | modules/eap/setup/eap/modules/added/probes/probe/dmr.py:147 | an unparseable or non-object body, an outcome other than "failed" (or missing), and a missing or falsy `result` all make the classifier raise |
| `Dmr.FalsyStepPoisonsBatch` | modules/eap/setup/eap/modules/added/probes/probe/dmr.py:152-160 | in a failed-outcome reply, a falsy value at any position below n raises the "Probe request failed" exception, even if entries are also missing further on |
| `Dmr.ShortResultRaisesIndexError` | modules/eap/setup/eap/modules/added/probes/probe/dmr.py:152-154 | in a failed-outcome reply with fewer result entries than tests, all truthy, the walk raises IndexError |
| `Dmr.DmrProbe.SendRequest` | modules/eap/setup/eap/modules/added/probes/probe/dmr.py:130-138 | once the reply is in, the method returns or raises exactly what the status gate function gives for the probe's number of tests |
| `Dmr.KnownGoodStatusSkipsClassifier` | modules/eap/setup/eap/modules/added/probes/probe/dmr.py:130-138 | statuses 200 and 403 return the parsed body as is, whatever it holds, or ValueError when it does not parse |
| `Dmr.OtherStatusReturnsOnlyUsable` | modules/eap/setup/eap/modules/added/probes/probe/dmr.py:130-138 | any other status returns a value if and only if the body is a usable failed-outcome reply, and the value is the body itself |
| `Dmr.UsableReplyFeedsEveryTest` | modules/eap/setup/eap/modules/added/probes/probe/dmr.py:148-156 | after any other status, every test i < n gets a truthy input from `getTestInput` |
| `Dmr.SecondOfThreeEmptyIsUnusable` | modules/eap/setup/eap/modules/added/probes/probe/dmr.py:152-160 | status 500, outcome "failed", three tests, second step result `{}`: the reply raises the "Probe request failed" exception |
| `Dmr.DmrProbe.ReadConfig` | modules/eap/setup/eap/modules/added/probes/probe/dmr.py:47-82 | the port is 9990 + offset; the method's token check and its loop over host, user and password report the error the configuration function gives, and on success the fields hold the configured host, user and password |
| `ProbeConfig.NetrcTokens` | modules/eap/setup/eap/modules/added/probes/probe/dmr.py:53 | the tokens are at least one, none holds a space, and joined with single spaces they give back the stripped command output |
| `ProbeConfig.MalformedExactlyWhenNotSixTokens` | modules/eap/setup/eap/modules/added/probes/probe/dmr.py:53-60 | the netrc line is reported malformed if and only if it does not split into exactly six tokens |
| `ProbeConfig.ParseConfigSucceeds` | modules/eap/setup/eap/modules/added/probes/probe/dmr.py:53-82 | the configuration is read if and only if there are exactly six tokens and tokens 1, 3 and 5 each hold a non-space character; then it is those tokens stripped, with port 9990 + offset |
| `ProbeConfig.ParseConfigReportsFirstMissing` | modules/eap/setup/eap/modules/added/probes/probe/dmr.py:67-82 | a missing-credential error names the first blank one in the order host, user, password |
| `ProbeConfig.ParseWellFormedLine` | modules/eap/setup/eap/modules/added/probes/probe/dmr.py:53-65 | a line "machine H login U password P" of whitespace-free words, followed by any whitespace, gives exactly host H, user U, password P and port 9990 + offset |
| `PyStr.StripLeftDrops` | modules/eap/setup/eap/modules/added/probes/probe/dmr.py:53 | `lstrip` keeps a suffix, drops only whitespace and leaves a non-space first character |
| `PyStr.StripRightDrops` | modules/eap/setup/eap/modules/added/probes/probe/dmr.py:53 | `rstrip` keeps a prefix, drops only whitespace and leaves a non-space last character |
| `PyStr.StripTrims` | modules/eap/setup/eap/modules/added/probes/probe/dmr.py:63-65 | `strip` keeps a contiguous slice, drops only whitespace around it, and what it keeps starts and ends with a non-space |
| `PyStr.StripEmpty` | modules/eap/setup/eap/modules/added/probes/probe/dmr.py:63-70 | a token strips to the empty string exactly when it is all whitespace |
| `PyStr.StripTrailing` | modules/eap/setup/eap/modules/added/probes/probe/dmr.py:53 | trailing whitespace after a line that starts and ends with a non-space is removed and nothing else |
| `PyStr.Split` | modules/eap/setup/eap/modules/added/probes/probe/dmr.py:53 | splitting on " " gives at least one piece, no piece holds a space, and joining the pieces with single spaces gives the string back |
| `PyStr.SplitJoin` | modules/eap/setup/eap/modules/added/probes/probe/dmr.py:53 | splitting space-free tokens joined with single spaces gives the tokens back |
| `Json.LookupFinds` | modules/eap/setup/eap/modules/added/probes/probe/dmr.py:147 | a subscript finds a value exactly when the key is present, and the value is the one stored under that key |
| `Json.LookupAt` | modules/eap/setup/eap/modules/added/probes/probe/dmr.py:152 | in an object with distinct keys, the entry at position k is what a lookup of its key returns, so `values()` and subscripts agree |

## Left out

- The HTTP round trip is not modelled. This covers `requests.post`, digest authentication,
  the `Accept` header, the proxy bypass and `verify=False`. It is network I/O through a
  foreign library. `SendRequest` takes the reply (status code and parsed body) as a
  parameter.
- The URL `http://host:port/management` is not modelled. It is the target of the POST
  request, which belongs to the HTTP round trip left out above, and it also appears in
  log lines and in the exception message.
- JSON text parsing (`response.json` with `OrderedDict`) is a library call. The body is
  an already-parsed `Option<Json>`, with `None` for a body that does not parse.
- JSON floating-point numbers are not modelled.
- Objects with duplicate keys are not modelled. An object stands for the dictionary the
  parser built, so each key appears at most once.
- `os.popen` of the netrc script, the `os.system` call that ensures the management user
  exists, and `sys.exit` are process side effects. The command output is a string
  parameter, and an exit is a returned `ConfigError`.
- Reading `PORT_OFFSET` from the environment and its `int()` conversion are not modelled.
  The offset is an integer parameter, so a non-numeric value is not covered.
- Logging and the text of exception messages are diagnostics only.
- The `BatchingProbe` and `Test` base classes are not part of this model. Each test is
  its query (`getQuery()`), taken as fixed, and the probe holds them as `seq<Json>`.
  `__init__` is the constructor followed by `ReadConfig`.
- `Dmr.GetTestInput`: takes a non-negative index only, because the probe passes indexes
  from `enumerate`. Python's negative list indexes are not modelled.
- `Dmr.DmrProbe.ReadConfig`: on failure, its contract does not state the values of
  `host`, `user` and `password`. The source assigns them before exiting the process, so
  they are never used.
