TestResult.DisplayName,TestResult.Outcome,TestResult.Duration,TestResult.ResourceCount,RandomSeed
RouteExtension.RouteExtension.ProcessHandlerTypes (correctness),Failed,00:00:00.5219757,2107592,4
RouteExtension.RouteExtension.ProcessHandlerTypes (well-formedness),Passed,00:00:00.1911854,110706,4
