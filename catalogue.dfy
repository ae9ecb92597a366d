/** The agency's fixed price list: four services with three packages each,
    and five add-ons (upsells). Prices are whole amounts in US dollars and in
    Haitian gourdes, listed side by side and never converted. */
module Catalogue {

  datatype Package = Package(id: string, name: string, priceUSD: int, priceHTG: int, features: seq<string>)

  datatype Service = Service(id: string, title: string, description: string, packages: seq<Package>)

  /** An add-on the client may attach to an order. */
  datatype AddOn = AddOn(id: string, name: string, priceUSD: int, priceHTG: int)

  const LogoBasic := Package("logo-basic", "Logo Basic", 30, 4000, ["1 Concept", "Fichiers JPG/PNG", "2 Révisions"])
  const LogoPro := Package("logo-pro", "Logo Pro", 80, 10500, ["3 Concepts", "Fichiers Source", "Révisions illimitées", "Social Media Kit"])
  const LogoPremium := Package("logo-premium", "Logo Premium", 150, 20000, ["5 Concepts", "Brand Guidelines", "Stationery Design", "Support Prioritaire"])

  const FlyerSimple := Package("flyer-simple", "Flyer Simple", 25, 3500, ["1 Design", "Format Web", "2 Révisions"])
  const FlyerPremium := Package("flyer-premium", "Flyer Premium", 60, 8000, ["Design Haute Qualité", "Format Impression", "Révisions illimitées"])
  const SocialPack := Package("social-pack", "Pack 5 Visuels", 90, 12000, ["5 Designs Cohérents", "Optimisé Réseaux Sociaux", "Fichiers Source"])

  const BrandingStarter := Package("branding-starter", "Branding Starter", 180, 24000, ["Logo Pro", "Palette Couleurs", "Typographie"])
  const BrandingBusiness := Package("branding-business", "Branding Business", 350, 47000, ["Logo Premium", "Brand Book", "Stationery", "Social Media Kit"])
  const BrandingElite := Package("branding-elite", "Branding Elite", 600, 80000, ["Branding Complet", "Stratégie de Marque", "Site Web Vitrine", "Accompagnement 1 mois"])

  const VideoSimple := Package("video-simple", "Montage Simple", 40, 5500, ["Coupe & Assemblage", "Musique Libre de Droit", "Max 1 min"])
  const VideoAds := Package("video-ads", "Vidéo Publicitaire", 120, 16000, ["Motion Graphics", "Voice Over", "Optimisé Ads"])
  const VideoPremium := Package("video-premium", "Vidéo Premium", 250, 33000, ["Production Haute Qualité", "Storytelling", "Effets Spéciaux"])

  const SERVICES: seq<Service> := [
    Service("logo", "LOGO DESIGN", "Créez une identité visuelle mémorable.",
            [LogoBasic, LogoPro, LogoPremium]),
    Service("flyers", "FLYERS & VISUELS", "Des visuels percutants pour vos événements et réseaux sociaux.",
            [FlyerSimple, FlyerPremium, SocialPack]),
    Service("branding", "BRANDING COMPLET", "Une image de marque professionnelle de A à Z.",
            [BrandingStarter, BrandingBusiness, BrandingElite]),
    Service("video", "MONTAGE VIDÉO", "Donnez vie à vos idées avec des vidéos professionnelles.",
            [VideoSimple, VideoAds, VideoPremium])
  ]

  const Express := AddOn("express", "Livraison Express", 20, 2600)

  const UPSELLS: seq<AddOn> := [
    Express,
    AddOn("unlimited", "Révisions Illimitées", 15, 2000),
    AddOn("source", "Fichiers Source", 25, 3300),
    AddOn("social", "Pack Réseaux Sociaux", 40, 5300),
    AddOn("logo-animated", "Logo Animé", 50, 6500)
  ]

  /** Every package of every service, in catalogue order. */
  function AllPackages(): (ps: seq<Package>)
    ensures |ps| == 12
    ensures forall s, p :: s in SERVICES && p in s.packages ==> p in ps
  {
    SERVICES[0].packages + SERVICES[1].packages + SERVICES[2].packages + SERVICES[3].packages
  }

  /** Two different add-ons never share an id. */
  lemma UpsellIdsDistinct()
    ensures forall i, j :: 0 <= i < j < |UPSELLS| ==> UPSELLS[i].id != UPSELLS[j].id
  {
    assert UPSELLS[2].id[2] != UPSELLS[3].id[2];
  }

  /** No add-on of the catalogue is called "urgent". */
  lemma NoUpsellIsUrgent()
    ensures forall o :: o in UPSELLS ==> o.id != "urgent"
  {
    assert Express.id[0] != "urgent"[0];
  }

  /** Package ids are distinct across the whole catalogue. */
  lemma PackageIdsDistinct()
    ensures forall i, j :: 0 <= i < j < |AllPackages()| ==> AllPackages()[i].id != AllPackages()[j].id
  {
  }

  /** Each service offers exactly three packages. */
  lemma ThreePackagesPerService()
    ensures forall s :: s in SERVICES ==> |s.packages| == 3
  {
  }

  /** Every package and every add-on costs a positive amount in both currencies. */
  lemma PricesPositive()
    ensures forall p :: p in AllPackages() ==> p.priceUSD > 0 && p.priceHTG > 0
    ensures forall o :: o in UPSELLS ==> o.priceUSD > 0 && o.priceHTG > 0
  {
  }
}
