/** The boutique registry (src/lib/services/boutiqueService.ts). */
module Boutiques {
  import opened Types
  import opened Seqs
  import opened Store

  /** `CreateBoutiqueData`: the fields the administrator supplies. */
  datatype BoutiqueDraft = BoutiqueDraft(
    nom_boutique: string,
    nom_vendeuse: string,
    prenom_vendeuse: string,
    numero_whatsapp: string,
    email: Option<string>,
    adresse: Option<string>,
    numero_depot: Option<string>)

  /** Boutique `id` is active and registered under `number`. */
  predicate HoldsActive(bs: map<Id, Boutique>, id: Id, number: string) {
    id in bs && bs[id].numero_whatsapp == number && bs[id].status == Active
  }

  /** Some active boutique is registered under `number`. */
  predicate NumberActive(bs: map<Id, Boutique>, number: string) {
    exists id | id in bs :: HoldsActive(bs, id, number)
  }

  /** No two active boutiques share a WhatsApp number. */
  ghost predicate UniqueActiveNumbers(bs: map<Id, Boutique>) {
    forall i, j | i in bs && j in bs :: HoldsActive(bs, i, bs[i].numero_whatsapp) && HoldsActive(bs, j, bs[i].numero_whatsapp) ==> i == j
  }

  /** `getBoutiqueByWhatsApp`: an active boutique with that number, if there is one. */
  method GetBoutiqueByWhatsApp(db: Database, number: string) returns (res: ApiResponse<(Id, Boutique)>)
    ensures res.Success? ==> HoldsActive(db.boutiques, res.data.0, number) && res.data.1 == db.boutiques[res.data.0]
    ensures res.Failure? <==> !NumberActive(db.boutiques, number)
    ensures res.Failure? ==> res.error == NotFound
  {
    if NumberActive(db.boutiques, number) {
      var id :| id in db.boutiques && HoldsActive(db.boutiques, id, number);
      res := Success((id, db.boutiques[id]));
    } else {
      res := Failure(NotFound);
    }
  }

  /** The stored record of a new boutique: active, created by the administrator,
      with every counter at zero. */
  function NewBoutique(d: BoutiqueDraft, adminId: Id, t: Time): (b: Boutique)
    ensures b.status == Active && b.created_by == adminId && b.created_at == t
    ensures b.total_produits == 0 && b.total_ventes == 0 && b.chiffre_affaires == 0
    ensures b.numero_whatsapp == d.numero_whatsapp
  {
    Boutique(d.nom_boutique, d.nom_vendeuse, d.prenom_vendeuse, d.numero_whatsapp,
             d.email, d.adresse, d.numero_depot, adminId, Active, t, 0, 0, 0)
  }

  /** `createBoutique`: refused when an active boutique already has the number. */
  method CreateBoutique(db: Database, d: BoutiqueDraft, adminId: Id, newId: Id)
    returns (res: ApiResponse<Boutique>)
    requires newId !in db.boutiques
    modifies db`boutiques, db`clock
    ensures NumberActive(old(db.boutiques), d.numero_whatsapp) ==>
      res == Failure(NumberInUse) && db.boutiques == old(db.boutiques) && db.clock == old(db.clock)
    ensures !NumberActive(old(db.boutiques), d.numero_whatsapp) ==>
      && db.clock == old(db.clock) + 1
      && res == Success(NewBoutique(d, adminId, db.clock))
      && db.boutiques == old(db.boutiques)[newId := res.data]
  {
    var found := GetBoutiqueByWhatsApp(db, d.numero_whatsapp);
    if found.Success? {
      return Failure(NumberInUse);
    }
    var t := db.Tick();
    var b := NewBoutique(d, adminId, t);
    db.boutiques := db.boutiques[newId := b];
    res := Success(b);
  }

  /** Creating a boutique keeps active numbers unique. */
  lemma CreateKeepsNumbersUnique(bs: map<Id, Boutique>, newId: Id, b: Boutique)
    requires UniqueActiveNumbers(bs) && newId !in bs
    requires !NumberActive(bs, b.numero_whatsapp)
    ensures UniqueActiveNumbers(bs[newId := b])
  {
    var bs' := bs[newId := b];
    forall i, j | i in bs' && j in bs' && HoldsActive(bs', i, bs'[i].numero_whatsapp) && HoldsActive(bs', j, bs'[i].numero_whatsapp)
      ensures i == j
    {
      if i == newId && j != newId {
        assert HoldsActive(bs, j, b.numero_whatsapp);
      } else if j == newId && i != newId {
        assert HoldsActive(bs, i, b.numero_whatsapp);
      } else if i != newId && j != newId {
        assert HoldsActive(bs, i, bs[i].numero_whatsapp) && HoldsActive(bs, j, bs[i].numero_whatsapp);
      }
    }
  }

  /** The lookup sees active boutiques only: a number held by an inactive boutique
      can be registered again, and reactivating the old boutique then leaves two
      active boutiques with the same number. */
  lemma ReactivationDuplicatesNumber(prior: Boutique, newer: Boutique)
    requires prior.status == Inactive && newer.status == Active
    requires newer.numero_whatsapp == prior.numero_whatsapp
    ensures !NumberActive(map["a" := prior], newer.numero_whatsapp)
    ensures UniqueActiveNumbers(map["a" := prior, "b" := newer])
    ensures !UniqueActiveNumbers(map["a" := prior.(status := Active), "b" := newer])
  {
    var bs := map["a" := prior.(status := Active), "b" := newer];
    assert HoldsActive(bs, "a", bs["a"].numero_whatsapp) && HoldsActive(bs, "b", bs["a"].numero_whatsapp);
  }

  /** `updateBoutiqueStatus`: sets the given status; a missing boutique makes the write fail. */
  method UpdateBoutiqueStatus(db: Database, id: Id, status: BoutiqueStatus) returns (res: ApiResponse<()>)
    modifies db`boutiques
    ensures id !in old(db.boutiques) ==> res == Failure(NotFound) && db.boutiques == old(db.boutiques)
    ensures id in old(db.boutiques) ==>
      res == Success(()) && db.boutiques == old(db.boutiques)[id := old(db.boutiques)[id].(status := status)]
  {
    if id !in db.boutiques {
      return Failure(NotFound);
    }
    db.boutiques := db.boutiques[id := db.boutiques[id].(status := status)];
    res := Success(());
  }

  /** The counters `updateBoutiqueStats` writes: each supplied value replaces the stored one. */
  function OverwriteStats(b: Boutique, produits: Option<int>, ventes: Option<int>, ca: Option<int>): Boutique {
    b.(total_produits := Overwrite(Some(b.total_produits), produits).value,
       total_ventes := Overwrite(Some(b.total_ventes), ventes).value,
       chiffre_affaires := Overwrite(Some(b.chiffre_affaires), ca).value)
  }

  /** `updateBoutiqueStats` replaces counters, it does not add to them: writing
      the same values twice is writing them once. */
  lemma OverwriteStatsIdempotent(b: Boutique, produits: Option<int>, ventes: Option<int>, ca: Option<int>)
    ensures OverwriteStats(OverwriteStats(b, produits, ventes, ca), produits, ventes, ca)
         == OverwriteStats(b, produits, ventes, ca)
    ensures ventes.Some? ==> OverwriteStats(b, produits, ventes, ca).total_ventes == ventes.value
  {
  }

  /** `updateBoutiqueStats`: writes the supplied counters over the stored ones. */
  method UpdateBoutiqueStats(db: Database, id: Id, produits: Option<int>, ventes: Option<int>, ca: Option<int>)
    returns (res: ApiResponse<()>)
    modifies db`boutiques
    ensures id !in old(db.boutiques) ==> res == Failure(NotFound) && db.boutiques == old(db.boutiques)
    ensures id in old(db.boutiques) ==>
      res == Success(()) && db.boutiques == old(db.boutiques)[id := OverwriteStats(old(db.boutiques)[id], produits, ventes, ca)]
  {
    if id !in db.boutiques {
      return Failure(NotFound);
    }
    db.boutiques := db.boutiques[id := OverwriteStats(db.boutiques[id], produits, ventes, ca)];
    res := Success(());
  }

  datatype BoutiquesStats = BoutiquesStats(total_boutiques: nat, boutiques_actives: nat, boutiques_inactives: int)

  /** `getBoutiquesStats` over every boutique: inactive is whatever is not active,
      so suspended boutiques are counted as inactive. */
  function BoutiquesStatsOf(bs: seq<Boutique>): (r: BoutiquesStats)
    ensures r.total_boutiques == |bs|
    ensures r.boutiques_actives == Count(bs, (b: Boutique) => b.status == Active)
    ensures r.boutiques_inactives == Count(bs, (b: Boutique) => b.status != Active)
  {
    var actives := Count(bs, (b: Boutique) => b.status == Active);
    CountComplement(bs, (b: Boutique) => b.status == Active, (b: Boutique) => b.status != Active);
    BoutiquesStats(|bs|, actives, |bs| - actives)
  }
}
