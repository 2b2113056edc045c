# SOLID principles in PHP: a verified model

This project models the parts of the SOLID teaching examples that hold logic:

- **Dependency inversion** (`dependency_inversion.dfy`): the MySQL and PostgreSQL drivers are classes with a `connected` flag. `connect` sets the flag and `disconnect` clears it. `query` throws "Not connected to database" unless the flag is set. The mock connection is a class whose query log is a `seq<string>` that `Query` appends to. The connection interface is a datatype over the three drivers. `PasswordReminder.SendReminder` runs connect, one lookup query, and disconnect through that datatype. A query that throws is an `Err` result that ends the call before the disconnect. The model proves this never happens.
- **Single responsibility** (`single_responsibility.dfy`): the sales repository keeps the mock sales whose timestamp is in an inclusive range and converts their cent total to dollars. The HTML and CSV formatters turn a total into text. The reporter composes the two. Each formatter's text is shown to carry the total exactly, by reading it back.
- **Open-closed** (`open_closed_after.dfy`, `open_closed_before.dfy`): shape areas, and two calculators written as loops. The later one sums each shape's own area. The earlier one dispatches on the value's kind and ignores kinds it does not know. The two agree on squares and circles.
- **Liskov substitution** (`liskov_before.dfy`, `liskov_after.dfy`): the file and Eloquent lesson repositories. In the earlier design one returns an array and the other a read-only collection, so the consumer needs two branches. The model proves both branches print the same lines. In the later design both return the same array; the later Eloquent repository builds its array through the earlier design's collection. The total duration (135) and the printed lines come from loops.
- **Interface segregation** (`interface_segregation_after.dfy`, `interface_segregation_before.dfy`): workers and a captain. Printed messages become the events each method emits. In the later design capabilities are predicates on the member kind, and team loops filter by capability. In the earlier design the robot's `sleep` throws, which stops the team loop at the first robot.

`decimal.dfy` renders an int as PHP writes it inside a string, and parses it back. `wrappers.dfy` holds `Option` and `Result`.

Behaviour that follows the code:
- A query on a disconnected driver fails with the driver's own message, "Not connected to database".
- Calling `connect` twice is harmless: it sets the flag again and returns the same token.

## Model

| member | source | states |
|---|---|---|
| DependencyInversion.MySQLConnection.constructor | 5-DependencyInversion/After/PasswordReminder.php:64-72 | a new MySQL connection is disconnected |
| DependencyInversion.MySQLConnection.Connect | 5-DependencyInversion/After/PasswordReminder.php:74-79 | whatever the prior state, the connection ends connected and the fixed resource token is returned |
| DependencyInversion.MySQLConnection.Query | 5-DependencyInversion/After/PasswordReminder.php:81-88 | succeeds if and only if connected, then returning the non-empty "mysql_result"; otherwise fails with "Not connected to database"; changes no state either way |
| DependencyInversion.MySQLConnection.Disconnect | 5-DependencyInversion/After/PasswordReminder.php:90-94 | the connection ends disconnected whatever its prior state |
| DependencyInversion.PostgreSQLConnection.constructor | 5-DependencyInversion/After/PasswordReminder.php:107-115 | a new PostgreSQL connection is disconnected |
| DependencyInversion.PostgreSQLConnection.Connect | 5-DependencyInversion/After/PasswordReminder.php:117-122 | ends connected and returns "postgresql_connection_resource" |
| DependencyInversion.PostgreSQLConnection.Query | 5-DependencyInversion/After/PasswordReminder.php:124-131 | succeeds if and only if connected, returning "postgresql_result"; otherwise fails with "Not connected to database"; changes no state |
| DependencyInversion.PostgreSQLConnection.Disconnect | 5-DependencyInversion/After/PasswordReminder.php:133-137 | ends disconnected |
| DependencyInversion.MockConnection.constructor | 5-DependencyInversion/After/PasswordReminder.php:145 | the log starts empty |
| DependencyInversion.MockConnection.Connect | 5-DependencyInversion/After/PasswordReminder.php:147-151 | returns "mock_connection" and leaves the log alone |
| DependencyInversion.MockConnection.Query | 5-DependencyInversion/After/PasswordReminder.php:153-158 | never fails; the log becomes the old log with exactly the given statement appended |
| DependencyInversion.MockConnection.Disconnect | 5-DependencyInversion/After/PasswordReminder.php:160-163 | closing the mock leaves its log unchanged |
| DependencyInversion.MockConnection.GetQueries | 5-DependencyInversion/After/PasswordReminder.php:165-168 | returns the log, in call order |
| DependencyInversion.ConnectTo | 5-DependencyInversion/After/PasswordReminder.php:12-17 | connecting through the interface returns the driver's token and leaves it ready to query |
| DependencyInversion.QueryOn | 5-DependencyInversion/After/PasswordReminder.php:12-17 | a query through the interface succeeds exactly when the driver was ready, with a truthy result; it keeps the connected state; on the mock it appends the statement |
| DependencyInversion.DisconnectFrom | 5-DependencyInversion/After/PasswordReminder.php:12-17 | disconnecting through the interface leaves no driver connected and the mock's log unchanged |
| DependencyInversion.UserLookup | 5-DependencyInversion/After/PasswordReminder.php:41-43 | the lookup statement is the fixed 35-character prefix ending in an opening quote, then the address verbatim, then a closing quote |
| DependencyInversion.UserLookupInjective | 5-DependencyInversion/After/PasswordReminder.php:41-43 | different addresses give different statements |
| DependencyInversion.PasswordReminder.constructor | 5-DependencyInversion/After/PasswordReminder.php:31-34 | the reminder keeps the injected connection |
| DependencyInversion.PasswordReminder.SendReminder | 5-DependencyInversion/After/PasswordReminder.php:36-51 | never fails with "Not connected" and always sends; the connection ends disconnected; a mock's log grows by exactly the one lookup statement for the address |
| DependencyInversion.QueryLifecycle | 5-DependencyInversion/After/PasswordReminder.php:74-137 | for either real driver: a query before connect fails, one after connect returns the driver's result, one after disconnect fails again |
| DependencyInversion.RemindThroughMock | 5-DependencyInversion/After/PasswordReminder.php:143-168 | a reminder sent through a fresh mock leaves exactly the lookup statement in its log |
| Decimal.ParseRender | 1-SingleResponsibility/After/SalesReporter.php:27 | the text of an interpolated int is non-empty and reads back as the same int |
| Decimal.RenderParse | 1-SingleResponsibility/After/SalesReporter.php:27 | a text reads back as n if and only if it is exactly n's interpolated text: no leading zeros, no "-0" |
| Decimal.CanonicalDigits | 1-SingleResponsibility/After/SalesReporter.php:27 | a digit string without a leading zero is the rendering of its own value |
| Decimal.RenderInjective | 1-SingleResponsibility/After/SalesReporter.php:27 | different ints render as different texts |
| SingleResponsibility.Filtered | 1-SingleResponsibility/After/SalesReporter.php:81-84 | a sale is kept if and only if start <= created_at <= end (both bounds inclusive); nothing is added |
| SingleResponsibility.FilteredPrepend | 1-SingleResponsibility/After/SalesReporter.php:81-84 | a leading sale in range stays at the front, ahead of the filtered rest, so kept sales keep their original order |
| SingleResponsibility.FilteredCounts | 1-SingleResponsibility/After/SalesReporter.php:81-84 | a sale in range is kept as many times as it occurs, any other sale not at all |
| SingleResponsibility.FilteredTotal | 1-SingleResponsibility/After/SalesReporter.php:81-87 | the sum over the filtered sales equals the reference sum weighting each sale by whether it is in range |
| SingleResponsibility.CountedMonotone | 1-SingleResponsibility/After/SalesReporter.php:81-87 | with non-negative charges, a wider range never counts less |
| SingleResponsibility.CountedWhole | 1-SingleResponsibility/After/SalesReporter.php:87 | whole-dollar charges give a whole-dollar total |
| SingleResponsibility.MockCounted | 1-SingleResponsibility/After/SalesReporter.php:65-78 | the mock data's counted total is 21100, 15000 and 30500 cents, each included if its sale is in range |
| SingleResponsibility.Between | 1-SingleResponsibility/After/SalesReporter.php:61-90 | the result times 100 is exactly the cent total of the sales in range, so the division by 100 is exact |
| SingleResponsibility.BetweenAll | 1-SingleResponsibility/After/SalesReporter.php:65-87 | a range covering all three sales yields 666 |
| SingleResponsibility.BetweenNone | 1-SingleResponsibility/After/SalesReporter.php:81-87 | a range holding none of the sales yields 0 |
| SingleResponsibility.BetweenMonotone | 1-SingleResponsibility/After/SalesReporter.php:68-87 | widening the range never decreases the total |
| SingleResponsibility.Output | 1-SingleResponsibility/After/SalesReporter.php:23-53 | the HTML text is "<h1>Sales: ", the total's text, then "</h1>"; the CSV text is "Sales", a newline, then the total's text; in both the embedded text reads back as the total given, which only the total's own decimal text does |
| SingleResponsibility.ReadBackOutput | 1-SingleResponsibility/After/SalesReporter.php:23-53 | the HTML text "<h1>Sales: n</h1>" and the CSV text "Sales" newline "n" each carry the total n, recoverable exactly |
| SingleResponsibility.ReadBackExact | 1-SingleResponsibility/After/SalesReporter.php:23-53 | a text reads back as a total if and only if it is that formatter's output for that total |
| SingleResponsibility.OutputExamples | 1-SingleResponsibility/After/SalesReporter.php:23-53 | a total of 556 gives "<h1>Sales: 556</h1>" and "Sales\n556" |
| SingleResponsibility.ReportBetween | 1-SingleResponsibility/After/SalesReporter.php:112-116 | the report carries the repository's total for the range, in the chosen formatter's shape, and is the only text that does |
| OpenClosedAfter.Shape.Area | 2-OpenClosed/After/AreaCalculator.php:32-95 | each shape's own formula (width times height, radius squared times PI, half base times height, length times width); never negative when no dimension is |
| OpenClosedAfter.AreaExamples | 2-OpenClosed/After/AreaCalculator.php:50-95 | a 3 by 4 rectangle has area 12, a circle of radius 2 has 4 PI, a triangle of base 6 and height 4 has 12 |
| OpenClosedAfter.SumAreasAppend | 2-OpenClosed/After/AreaCalculator.php:109-118 | the total over a concatenation is the sum of the two totals |
| OpenClosedAfter.SumAreasNonNegative | 2-OpenClosed/After/AreaCalculator.php:109-118 | well-formed shapes give a non-negative total |
| OpenClosedAfter.Calculate | 2-OpenClosed/After/AreaCalculator.php:109-118 | the loop returns the sum of every shape's area, 0 for no shapes |
| OpenClosedBefore.Calculate | 2-OpenClosed/Before/AreaCalculator.php:41-55 | the dispatching loop returns the sum of each value's contribution, 0 for no values |
| OpenClosedBefore.Contribution | 2-OpenClosed/Before/AreaCalculator.php:45-51 | a square or circle adds exactly the later design's area for that shape; any other value adds 0 |
| OpenClosedBefore.TotalAppend | 2-OpenClosed/Before/AreaCalculator.php:45-52 | the total is additive over concatenation |
| OpenClosedBefore.IgnoresUnrecognised | 2-OpenClosed/Before/AreaCalculator.php:45-51 | a value that is neither a square nor a circle, anywhere in the list, changes nothing |
| OpenClosedBefore.AgreesWithAfter | 2-OpenClosed/Before/AreaCalculator.php:45-50 | on squares and circles alone the two calculators give the same total |
| LiskovBefore.LessonCollection.ToArray | 3-LiskovSubstitution/Before/LessonRepository.php:54-62 | returns the items the collection was built with: rebuilding a collection from them gives the same collection |
| LiskovBefore.LessonCollection.Count | 3-LiskovSubstitution/Before/LessonRepository.php:64-67 | the number of items toArray returns |
| LiskovBefore.CollectionReadsBack | 3-LiskovSubstitution/Before/LessonRepository.php:50-68 | a collection returns exactly the items it was built with, and counts them |
| LiskovBefore.GetAll | 3-LiskovSubstitution/Before/LessonRepository.php:20-44 | the file repository returns an array and the Eloquent one a collection; both hold three lessons, ids 1 to 3 with durations 30, 45 and 60 |
| LiskovBefore.EloquentMatchesFile | 3-LiskovSubstitution/Before/LessonRepository.php:20-44 | the Eloquent collection converted to an array equals the file repository's array |
| LiskovBefore.Display | 3-LiskovSubstitution/Before/LessonRepository.php:79-91 | whichever branch runs, the lines are "Found n lessons:" with n the number of lessons, then one "- title (duration min)" line per lesson in order |
| LiskovBefore.DisplayLessons | 3-LiskovSubstitution/Before/LessonRepository.php:73-95 | both repositories make the consumer print the same four lines |
| LiskovBefore.BranchesAgree | 3-LiskovSubstitution/Before/LessonRepository.php:73-95 | the collection branch and the array branch print identical lines for the same items: a header and one line per lesson |
| LiskovAfter.GetAll | 3-LiskovSubstitution/After/LessonRepository.php:24-54 | either repository returns an array of three lessons, ids 1 to 3 with durations 30, 45 and 60 in that order, the same records as the earlier design's file repository |
| LiskovAfter.GetAllSubstitutable | 3-LiskovSubstitution/After/LessonRepository.php:24-54 | both repositories return the same sequence |
| LiskovAfter.SumDurationsAppend | 3-LiskovSubstitution/After/LessonRepository.php:74-85 | the summed duration is additive over concatenation |
| LiskovAfter.TotalIs135 | 3-LiskovSubstitution/After/LessonRepository.php:74-85 | either repository's lessons sum to 135 minutes |
| LiskovAfter.CalculateTotalDuration | 3-LiskovSubstitution/After/LessonRepository.php:74-85 | the loop returns the sum of the durations of the repository's lessons, which is 135 for both |
| LiskovAfter.DisplayLessons | 3-LiskovSubstitution/After/LessonRepository.php:59-69 | the loop prints "Found n lessons:" with n the number of lessons, then "- title (duration min)" per lesson in order, the same lines as the earlier design's array branch |
| InterfaceSegregationAfter.Work | 4-InterfaceSegregation/After/Worker.php:38-63 | a workable worker emits one work event |
| InterfaceSegregationAfter.Sleep | 4-InterfaceSegregation/After/Worker.php:43-46 | only a sleepable worker can be asked to sleep; it emits one sleep event |
| InterfaceSegregationAfter.BeManaged | 4-InterfaceSegregation/After/Worker.php:48-69 | a human emits work then sleep, an android only work; a sleep event appears exactly when the worker can sleep |
| InterfaceSegregationAfter.Manage | 4-InterfaceSegregation/After/Worker.php:82-85 | managing emits what the worker's being managed emits |
| InterfaceSegregationAfter.AssignWork | 4-InterfaceSegregation/After/Worker.php:90-94 | "Assigning work" followed by that worker's work event |
| InterfaceSegregationAfter.ScheduleRest | 4-InterfaceSegregation/After/Worker.php:99-103 | only a human can be given rest; "Time for rest" followed by its sleep event |
| InterfaceSegregationAfter.ManageTeam | 4-InterfaceSegregation/After/Worker.php:108-115 | the loop emits each manageable member's events in list order and nothing for other members, and never fails |
| InterfaceSegregationAfter.CoordinateWork | 4-InterfaceSegregation/After/Worker.php:120-127 | the loop emits an assignment and a work event per workable member, in list order |
| InterfaceSegregationAfter.TeamEventsAppend | 4-InterfaceSegregation/After/Worker.php:108-115 | managing a concatenated team emits the first team's events then the second's |
| InterfaceSegregationAfter.CoordinationEventsAppend | 4-InterfaceSegregation/After/Worker.php:120-127 | coordinating a concatenated team emits the first team's events then the second's |
| InterfaceSegregationAfter.NoAndroidSleeps | 4-InterfaceSegregation/After/Worker.php:58-69 | no team's management ever emits an android sleep or a rest call |
| InterfaceSegregationAfter.TeamEventsCount | 4-InterfaceSegregation/After/Worker.php:108-115 | managing a team emits two events per human, one per android and none per other member |
| InterfaceSegregationAfter.CoordinationEventsCount | 4-InterfaceSegregation/After/Worker.php:120-127 | coordinating a team emits two events per workable member |
| InterfaceSegregationBefore.Work | 4-InterfaceSegregation/Before/Worker.php:23-43 | work always succeeds, emitting one work event |
| InterfaceSegregationBefore.Sleep | 4-InterfaceSegregation/Before/Worker.php:28-54 | sleep succeeds if and only if the worker is human; a robot's throws "Robots don't sleep!" and emits nothing |
| InterfaceSegregationBefore.Manage | 4-InterfaceSegregation/Before/Worker.php:62-66 | work comes first, so even a failing robot has emitted its work event; a human emits work then sleep |
| InterfaceSegregationBefore.FirstRobot | 4-InterfaceSegregation/Before/Worker.php:68-73 | the position of the first robot: every worker before it is human |
| InterfaceSegregationBefore.ManageTeam | 4-InterfaceSegregation/Before/Worker.php:68-73 | fails if and only if the team has a robot; without one, work and sleep per worker in order; with one, the events of the humans before the first robot, then that robot's work, and nothing for later workers |
| InterfaceSegregationBefore.HumansEventsShape | 4-InterfaceSegregation/Before/Worker.php:68-73 | for humans only, the events are exactly work then sleep for each worker, in team order |

## Left out

- Printed text: every `echo` is modelled as an emitted event or a produced line, not as output to a console. The connection drivers' progress messages are not modelled at all.
- Connection settings (host, user name, password, database): they are only stored and printed, so the driver classes do not hold them.
- `JSONOutput`: it calls PHP's `json_encode`, which is not part of this model.
- Date parsing: `strtotime` is a library call. Sale times and range bounds are integer timestamps. The three sale times are their literal dates read as UTC; PHP would use the server's time zone.
- SingleResponsibility.Between: PHP's `/` gives a float when the cent total is not a multiple of 100. That never happens with the fixed data, which the model proves, so totals are ints and float rendering is not modelled.
- Area values: PHP computes areas in floating point. The model uses exact reals, and `pi()` is an abstract positive constant.
- LiskovAfter.GetAll: the later design's Eloquent repository builds a `LessonCollection`, a class its own file does not declare; it exists only in the earlier design's file, and the two files cannot be loaded together. The model gives the later repository the earlier design's collection, whose `toArray` returns its items. Without that class the later Eloquent branch would fail with a missing-class error, so its results and the 135-minute total hold for Eloquent only under this reading.
- Shapes are values: the shape objects' public fields are never changed by the calculators, so shapes are modelled as immutable data.
- OpenClosedBefore and InterfaceSegregationAfter: PHP arrays can hold anything. "Any other value" is a single `Unrecognised` value in the area calculator and a single `Bystander` member in the team.
- InterfaceSegregationBefore.ManageTeam: a value that is not a worker would make PHP raise a type error. Teams are modelled as workers only.
- 1-SingleResponsibility/Before/SalesReporter.php is not part of this model. It is built on `Auth::check`, `Carbon` and a collection library, none of which is shown.
- 5-DependencyInversion/Before/PasswordReminder.php is not part of this model. It has no state and no failure case, and its query text is the same as the later design's.
