/** The refills queue: what TasksService puts into it and what its processor makes of it. */
module RefillsQueue {
  import opened Options

  /** A value in a job's payload. Amounts travel as decimal strings; here they keep their number. */
  datatype Value = Text(s: string) | Decimal(d: real) | Integer(n: int)

  datatype Job = Job(name: string, data: map<string, Value>)

  /** The call of RefillsService that a job leads to; None stands for undefined. */
  datatype Send =
    | SendEthTo(to: Option<Value>, amount: Option<Value>)
    | SendTokensTo(to: Option<Value>, amount: Option<Value>)
    | SendArTo(to: Option<Value>, amount: Option<Value>)
    | SendAoTo(to: Option<Value>, amount: Option<Value>)
    | TopUpTurboCredits(to: Option<Value>, amount: Option<Value>)
    | UnknownJob

  // ----- TasksService.requestRefillAr, requestRefillToken, requestRefillTurboCredits

  function RefillArJob(address: string, amount: real): Job {
    Job("refill-ar", map["arReceiver" := Text(address), "arAmount" := Decimal(amount)])
  }

  function RefillTokenJob(address: string, amount: int): Job {
    Job("refill-token", map["tokenReceiver" := Text(address), "tokenAmount" := Integer(amount)])
  }

  function RefillTurboJob(address: string, amount: real): Job {
    Job("refill-turbo-credits", map["turboAddress" := Text(address), "creditAmount" := Decimal(amount)])
  }

  // ----- RefillsQueue.process

  function Field(data: map<string, Value>, key: string): Option<Value> {
    if key in data then Some(data[key]) else None
  }

  function Dispatch(job: Job): Send {
    if job.name == "refill-eth" then SendEthTo(Field(job.data, "ethReceiver"), Field(job.data, "ethAmount"))
    else if job.name == "refill-token" then
      SendTokensTo(Field(job.data, "tokenReceiver"), Field(job.data, "tokenAmount"))
    else if job.name == "refill-ar" then SendArTo(Field(job.data, "arReceiver"), Field(job.data, "arAmount"))
    else if job.name == "refill-ao" then
      SendAoTo(Field(job.data, "uploaderAddress"), Field(job.data, "uploaderAmount"))
    else if job.name == "refill-turbo-credits" then
      TopUpTurboCredits(Field(job.data, "turboAddress"), Field(job.data, "creditAmount"))
    else UnknownJob
  }

  /** Each job name leads to the call of its own, with the two fields that belong to it, whatever they
    * hold; any other name leads nowhere. */
  lemma DispatchIs(to: Value, amount: Value)
    ensures Dispatch(Job("refill-eth", map["ethReceiver" := to, "ethAmount" := amount]))
         == SendEthTo(Some(to), Some(amount))
    ensures Dispatch(Job("refill-token", map["tokenReceiver" := to, "tokenAmount" := amount]))
         == SendTokensTo(Some(to), Some(amount))
    ensures Dispatch(Job("refill-ar", map["arReceiver" := to, "arAmount" := amount]))
         == SendArTo(Some(to), Some(amount))
    ensures Dispatch(Job("refill-ao", map["uploaderAddress" := to, "uploaderAmount" := amount]))
         == SendAoTo(Some(to), Some(amount))
    ensures Dispatch(Job("refill-turbo-credits", map["turboAddress" := to, "creditAmount" := amount]))
         == TopUpTurboCredits(Some(to), Some(amount))
    ensures forall name, data ::
      Dispatch(Job(name, data)) == UnknownJob
      <==> name !in {"refill-eth", "refill-token", "refill-ar", "refill-ao", "refill-turbo-credits"}
  {
  }
}
