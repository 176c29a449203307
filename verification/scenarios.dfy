/** The three packages the tracker's driver processes, with the exact summary
    each one yields before the message rounds it to three decimals. */
module Scenarios {
  import opened Training
  import opened Dispatch
  import opened Driver

  /** The packages the driver loops over. */
  const DriverPackages: seq<(string, seq<real>)> := [
    ("SWM", [720.0, 1.0, 80.0, 25.0, 40.0]),
    ("RUN", [15000.0, 1.0, 75.0]),
    ("WLK", [9000.0, 1.0, 75.0, 180.0])
  ]

  /** 720 strokes in one hour, 80 kg, 40 lengths of a 25 m pool. */
  lemma SwimmingPackage()
    ensures ReadPackage("SWM", [720.0, 1.0, 80.0, 25.0, 40.0]).Built?
    ensures ShowTrainingInfo(ReadPackage("SWM", [720.0, 1.0, 80.0, 25.0, 40.0]).workout)
              == InfoMessage("Swimming", 1.0, 0.9936, 1.0, 336.0)
  {
    DispatchTable(720.0, 1.0, 80.0, 25.0, 40.0);
  }

  /** 15000 steps in one hour, 75 kg. */
  lemma RunningPackage()
    ensures ReadPackage("RUN", [15000.0, 1.0, 75.0]).Built?
    ensures ShowTrainingInfo(ReadPackage("RUN", [15000.0, 1.0, 75.0]).workout)
              == InfoMessage("Running", 1.0, 9.75, 9.75, 797.805)
  {
    DispatchTable(15000.0, 1.0, 75.0, 0.0, 0.0);
  }

  /** 9000 steps in one hour, 75 kg, 180 cm. */
  lemma WalkingPackage()
    ensures ReadPackage("WLK", [9000.0, 1.0, 75.0, 180.0]).Built?
    ensures ShowTrainingInfo(ReadPackage("WLK", [9000.0, 1.0, 75.0, 180.0]).workout)
              == InfoMessage("SportsWalking", 1.0, 5.85, 5.85, 349.251747525)
  {
    DispatchTable(9000.0, 1.0, 75.0, 180.0, 0.0);
  }

  /** The driver prints the three summaries above, in order, and no package
      raises. */
  lemma DriverOutput()
    ensures Run(DriverPackages)
              == Report([InfoMessage("Swimming", 1.0, 0.9936, 1.0, 336.0),
                         InfoMessage("Running", 1.0, 9.75, 9.75, 797.805),
                         InfoMessage("SportsWalking", 1.0, 5.85, 5.85, 349.251747525)], None)
  {
    SwimmingPackage();
    RunningPackage();
    WalkingPackage();
    CollectCompletes(Outcomes(DriverPackages),
                     [InfoMessage("Swimming", 1.0, 0.9936, 1.0, 336.0),
                      InfoMessage("Running", 1.0, 9.75, 9.75, 797.805),
                      InfoMessage("SportsWalking", 1.0, 5.85, 5.85, 349.251747525)]);
  }
}
